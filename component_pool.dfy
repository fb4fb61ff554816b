/**
 * The per-type component store of the ECS (include/core/ECS/Component.inl).
 * A pool pairs a sparse set of entity ids with a vector of component pointers
 * kept in the set's dense order, so `components[sparseSet.Search(e)]` is the
 * component of entity `e`.
 */
module Components {
  import opened SparseSets

  /** At most this many entities exist at once (include/GlobalDefinition.h). */
  const MaxEntities: nat := 1000

  /**
   * The component types of the game; `Other` stands for a type the scene has
   * no pool for.
   */
  datatype Kind =
    | Transform | RectTransform | Renderable | Camera | Physics
    | Character | Controllable | Weapon | Map | Chunk | Other

  /** A default-constructed component; only its type matters here. */
  class Component {
    const kind: Kind

    constructor (k: Kind)
      ensures kind == k
    {
      kind := k;
    }
  }

  /**
   * Slot `i` of the component vector holds the component made for the `i`-th member,
   * and only members have one.
   */
  ghost predicate Aligned(members: seq<nat>, components: seq<Component>, madeFor: map<nat, Component>) {
    |members| == |components| &&
    (forall i :: 0 <= i < |members| ==> members[i] in madeFor && components[i] == madeFor[members[i]]) &&
    (forall e :: e in madeFor ==> e in members)
  }

  /** Swap-with-last on both sequences keeps them aligned once the removed member's entry is dropped. */
  lemma AlignedSwapRemove(members: seq<nat>, components: seq<Component>, madeFor: map<nat, Component>, k: nat)
    requires Aligned(members, components, madeFor) && Distinct(members) && k < |members|
    ensures Aligned(SwapRemove(members, k), SwapRemove(components, k), madeFor - {members[k]})
  {
    SwapRemoveMembers(members, k);
  }

  /** The dense slot holding `e`: its first position, the only one in a set. */
  function SlotOf(s: seq<nat>, e: nat): (k: nat)
    requires e in s
    ensures k < |s| && s[k] == e
    ensures forall j :: 0 <= j < k ==> s[j] != e
  {
    if s[0] == e then 0 else 1 + SlotOf(s[1..], e)
  }

  /** In a sequence without duplicates, removing `e` is the swap-remove at wherever `e` sits. */
  lemma RemovedAt(s: seq<nat>, e: nat, k: nat)
    requires Distinct(s) && k < |s| && s[k] == e
    ensures Removed(s, e) == SwapRemove(s, k)
  {
    var i := SlotOf(s, e);
    assert i <= k;
    assert s[i] == s[k];
  }

  /** The members RemoveComponent(e) leaves: swap-with-last at e's slot, or all of them when e holds none. */
  function Removed(members: seq<nat>, e: nat): (r: seq<nat>)
    ensures e in members ==> |r| == |members| - 1
    ensures e !in members ==> r == members
  {
    if e in members then SwapRemove(members, SlotOf(members, e)) else members
  }

  /** Removing `e` keeps exactly the other members, still without duplicates. */
  lemma RemovedMembers(members: seq<nat>, e: nat)
    requires Distinct(members)
    ensures Distinct(Removed(members, e))
    ensures forall v :: v in Removed(members, e) <==> v in members && v != e
  {
    if e in members {
      SwapRemoveMembers(members, SlotOf(members, e));
    }
  }

  class ComponentPool {
    const kind: Kind
    const capacity: nat
    const sparseSet: SparseSet
    var count: nat
    var components: seq<Component>
    /** The component created for each entity that still holds one. */
    ghost var madeFor: map<nat, Component>

    ghost function Repr(): set<object> {
      {this} + sparseSet.Repr()
    }

    ghost predicate Valid()
      reads Repr()
    {
      sparseSet.Valid() &&
      sparseSet.maxValue == capacity && sparseSet.capacity == capacity &&
      count == |components| == sparseSet.count &&
      Aligned(sparseSet.Elements(), components, madeFor) &&
      (forall e :: e in madeFor ==> madeFor[e].kind == kind)
    }

    /** The entities holding a component, in dense order. */
    ghost function Members(): seq<nat>
      reads Repr()
      requires Valid()
    {
      sparseSet.Elements()
    }

    /** Both source constructors: the default capacity is MaxEntities, ids 0..cap are accepted. */
    constructor (k: Kind, cap: nat := MaxEntities)
      ensures Valid() && fresh(Repr())
      ensures kind == k && capacity == cap && sparseSet.maxValue == cap
      ensures Members() == [] && components == [] && madeFor == map[]
    {
      kind := k;
      count := 0;
      components := [];
      sparseSet := new SparseSet(cap, cap);
      capacity := cap;
      madeFor := map[];
    }

    method AddComponent(entity: nat) returns (c: Component?)
      requires Valid()
      modifies Repr()
      ensures Valid()
      ensures c != null <==> old(count) < capacity && entity <= capacity && entity !in old(Members())
      ensures c != null ==> fresh(c) && c.kind == kind && Members() == old(Members()) + [entity] &&
                            components == old(components) + [c] && madeFor == old(madeFor)[entity := c]
      ensures c == null ==> Members() == old(Members()) && components == old(components) &&
                            madeFor == old(madeFor)
    {
      if count < capacity {
        var inserted := sparseSet.Insert(entity);
        if inserted {
          c := new Component(kind);
          ghost var members := sparseSet.Elements();
          components := components + [c];
          count := count + 1;
          madeFor := madeFor[entity := c];
          return;
        }
      }
      c := null;
    }

    /** The component of `entity`, or null when it has none. */
    function GetComponent(entity: nat): (c: Component?)
      reads Repr()
      requires Valid()
      ensures c == null <==> entity !in Members()
      ensures c != null ==> entity in madeFor && c == madeFor[entity] && c.kind == kind
    {
      var index := sparseSet.Search(entity);
      if index != -1 then components[index] else null
    }

    method RemoveComponent(entity: nat) returns (ok: bool)
      requires Valid()
      modifies Repr()
      ensures Valid()
      ensures ok <==> entity in old(Members())
      ensures ok ==> Members() == SwapRemove(old(Members()), old(sparseSet.Search(entity))) &&
                     components == SwapRemove(old(components), old(sparseSet.Search(entity))) &&
                     madeFor == old(madeFor) - {entity}
      ensures !ok ==> Members() == old(Members()) && components == old(components) && madeFor == old(madeFor)
      ensures Members() == Removed(old(Members()), entity) && madeFor == old(madeFor) - {entity}
      ensures GetComponent(entity) == null
      ensures forall e :: e != entity ==> GetComponent(e) == old(GetComponent(e))
    {
      var index := sparseSet.Search(entity);
      if index == -1 {
        assert entity !in madeFor;
        return false;
      }
      ghost var members := sparseSet.Elements();
      sparseSet.ElementsDistinct();
      var deleted := sparseSet.Delete(entity);
      if deleted {
        RemovedAt(members, entity, index);
        DropComponent(entity, index, members);
        return true;
      }
      return false;
    }

    /**
     * The component half of RemoveComponent, once the set has swap-removed `entity`
     * from slot `index`: the component vector does the same, and `entity`'s
     * component is forgotten.
     */
    method DropComponent(entity: nat, index: nat, ghost members: seq<nat>)
      requires sparseSet.Valid() && sparseSet.maxValue == capacity && sparseSet.capacity == capacity
      requires Aligned(members, components, madeFor) && Distinct(members)
      requires index < |members| && members[index] == entity
      requires sparseSet.Elements() == SwapRemove(members, index)
      requires count == |components| == sparseSet.count + 1
      requires forall e :: e in madeFor ==> madeFor[e].kind == kind
      modifies this
      ensures Valid()
      ensures components == SwapRemove(old(components), index) && madeFor == old(madeFor) - {entity}
    {
      var last := components[|components| - 1];
      AlignedSwapRemove(members, components, madeFor, index);
      components := components[index := last][..|components| - 1];
      count := count - 1;
      madeFor := madeFor - {entity};
    }
  }
}
