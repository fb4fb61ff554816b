/**
 * Entity bookkeeping of the game scene (src/game_client/GameScene.cpp and
 * include/game_client/GameScene.inl): the list of live entity ids, the id
 * counter bounded by MaxEntities, and one component pool per component type.
 */
module Scenes {
  import opened Wrappers
  import opened SparseSets
  import opened Components

  /**
   * The exceptions the scene throws, and EraseOutOfRange for the undefined
   * `erase` past the end of the entity list (see DestroyEntityAsWritten).
   */
  datatype SceneError = TooManyEntities | PoolFull | UnknownComponentType | EraseOutOfRange

  /** `vector::erase(begin() + k)`: drop the element at position `k`. */
  function EraseAt(s: seq<nat>, k: nat): (r: seq<nat>)
    requires k < |s|
    ensures |r| == |s| - 1
    ensures forall i :: 0 <= i < |r| ==> r[i] == if i < k then s[i] else s[i + 1]
    ensures forall v :: v in r ==> v in s
  {
    s[..k] + s[k + 1..]
  }

  /** Drop the first occurrence of the value `e`, the removal DestroyEntity intends. */
  function EraseEntity(s: seq<nat>, e: nat): (r: seq<nat>)
    ensures e !in s ==> r == s
    ensures e in s ==> |r| == |s| - 1
    ensures forall v :: v in r ==> v in s
  {
    if s == [] then []
    else if s[0] == e then s[1..]
    else [s[0]] + EraseEntity(s[1..], e)
  }

  /** Erasing by value removes exactly one occurrence of `e` and keeps every other id. */
  lemma {:induction false} EraseEntityRemovesOne(s: seq<nat>, e: nat)
    requires e in s
    ensures multiset(EraseEntity(s, e)) == multiset(s) - multiset{e}
  {
    assert s == [s[0]] + s[1..];
    if s[0] != e {
      EraseEntityRemovesOne(s[1..], e);
    }
  }

  /** Erasing position `k` removes exactly one copy of the id stored there. */
  lemma EraseAtRemovesOne(s: seq<nat>, k: nat)
    requires k < |s|
    ensures multiset(EraseAt(s, k)) == multiset(s) - multiset{s[k]}
  {
    assert s == s[..k] + [s[k]] + s[k + 1..];
  }

  /**
   * Erasing at the position named by the id, as DestroyEntity does, goes wrong
   * whenever the id is listed but does not sit at that position: the id stays
   * listed, and the entries left differ from those of erasing the id itself.
   */
  lemma EraseAtRemovesWrongEntity(s: seq<nat>, e: nat)
    requires e in s && e < |s| && s[e] != e
    ensures e in EraseAt(s, e)
    ensures multiset(EraseAt(s, e)) != multiset(EraseEntity(s, e))
  {
    EraseAtRemovesOne(s, e);
    EraseEntityRemovesOne(s, e);
    assert multiset(EraseAt(s, e))[e] == multiset(s)[e];
    assert multiset(EraseEntity(s, e))[e] == multiset(s)[e] - 1;
  }

  lemma PrefixExtend<T>(s: seq<T>, i: nat)
    requires i < |s|
    ensures s[..i + 1] == s[..i] + [s[i]]
  {
  }

  /** Number of component pools the scene owns, one per kind other than `Other`. */
  const PoolCount: nat := 10

  /** The position of kind `k`'s pool among the scene's pools (declaration order). */
  function Ordinal(k: Kind): (i: nat)
    requires k != Other
    ensures i < PoolCount && KindAt(i) == k
  {
    match k
    case Transform => 0
    case RectTransform => 1
    case Renderable => 2
    case Camera => 3
    case Physics => 4
    case Character => 5
    case Controllable => 6
    case Weapon => 7
    case Map => 8
    case Chunk => 9
  }

  function KindAt(i: nat): Kind
    requires i < PoolCount
  {
    [Transform, RectTransform, Renderable, Camera, Physics, Character, Controllable, Weapon, Map, Chunk][i]
  }

  class GameScene {
    var entities: seq<nat>
    var entityCount: nat
    var worldEntity: nat
    var playerEntity: nat
    /** The ten pools (transform, rectTransform, ..., chunk), in declaration order. */
    const pools: seq<ComponentPool>

    /** The pool that stores components of kind `k`. */
    function PoolOf(k: Kind): ComponentPool
      requires |pools| == PoolCount && k != Other
    {
      pools[Ordinal(k)]
    }

    /** The scene and the objects of its pools. */
    ghost const Repr: set<object>

    ghost predicate Valid()
      reads this, Repr
    {
      this in Repr && |pools| == PoolCount &&
      (forall i :: 0 <= i < PoolCount ==> pools[i].Repr() <= Repr) &&
      (forall i :: 0 <= i < PoolCount ==>
         pools[i].Valid() && pools[i].kind == KindAt(i) && pools[i].capacity == MaxEntities) &&
      (forall i, j :: 0 <= i < j < PoolCount ==> pools[i].Repr() !! pools[j].Repr()) &&
      |entities| <= entityCount <= MaxEntities &&
      (forall e :: e in entities ==> e < MaxEntities)
    }

    /**
     * Every listed id was issued by the counter and is listed once, so the
     * counter never hands out an id that is still live.
     */
    ghost predicate UniqueIds()
      reads this
    {
      (forall e :: e in entities ==> e < entityCount) &&
      (forall e :: multiset(entities)[e] <= 1)
    }

    /** The entities holding a component of kind `k`. */
    ghost function Members(k: Kind): seq<nat>
      reads this, Repr
      requires Valid() && k != Other
    {
      PoolOf(k).Members()
    }

    /** The component each entity holds in the pool of kind `k`. */
    ghost function Made(k: Kind): map<nat, Component>
      reads this, Repr
      requires Valid() && k != Other
    {
      PoolOf(k).madeFor
    }

    /** Whether the pool of kind `k` would accept entity `e`. */
    ghost predicate CanAdd(k: Kind, e: nat)
      reads this, Repr
      requires Valid() && k != Other
    {
      |Members(k)| < MaxEntities && e <= MaxEntities && e !in Members(k)
    }

    constructor ()
      ensures Valid() && fresh(Repr) && UniqueIds()
      ensures entityCount == 0 && entities == [] && worldEntity == 0
      ensures forall k :: k != Other ==> Members(k) == []
    {
      entityCount := 0;
      entities := [];
      worldEntity := 0;
      var made, objects := NewPools();
      pools := made;
      Repr := {this} + objects;
    }

    /** The ten empty pools the constructor creates, one per kind, with disjoint footprints. */
    static method NewPools() returns (made: seq<ComponentPool>, ghost objects: set<object>)
      ensures |made| == PoolCount && fresh(objects)
      ensures forall i :: 0 <= i < PoolCount ==>
                made[i].Valid() && made[i].Repr() <= objects && made[i].kind == KindAt(i) &&
                made[i].capacity == MaxEntities && made[i].Members() == []
      ensures forall i, j :: 0 <= i < j < PoolCount ==> made[i].Repr() !! made[j].Repr()
    {
      made, objects := [], {};
      while |made| < PoolCount
        invariant |made| <= PoolCount
        invariant fresh(objects)
        invariant forall i :: 0 <= i < |made| ==>
                    made[i].Valid() && made[i].Repr() <= objects && made[i].kind == KindAt(i) &&
                    made[i].capacity == MaxEntities && made[i].Members() == []
        invariant forall i, j :: 0 <= i < j < |made| ==> made[i].Repr() !! made[j].Repr()
      {
        var pool := new ComponentPool(KindAt(|made|));
        made := made + [pool];
        objects := objects + pool.Repr();
      }
    }

    /** A new entity without components; its id is the counter's value. */
    method CreateEntity() returns (r: Result<nat, SceneError>)
      requires Valid()
      modifies this`entities, this`entityCount
      ensures Valid()
      ensures old(entityCount) >= MaxEntities ==> r == Err(TooManyEntities) && entities == old(entities) &&
                                                   entityCount == old(entityCount)
      ensures old(entityCount) < MaxEntities ==> r == Ok(old(entityCount)) &&
                                                  entities == old(entities) + [old(entityCount)] &&
                                                  entityCount == old(entityCount) + 1
      ensures old(UniqueIds()) ==> UniqueIds()
    {
      if entityCount >= MaxEntities {
        return Err(TooManyEntities);
      }
      var id := TakeId();
      AppendEntry(id);
      r := Ok(id);
    }

    /** Give `entity` a default component of kind `k`. */
    method AddComponentToEntity(k: Kind, entity: nat) returns (r: Outcome<SceneError>)
      requires Valid()
      modifies Repr - {this}
      ensures Valid()
      ensures k == Other ==> r == Fail(UnknownComponentType)
      ensures k != Other ==> (r == Pass <==> old(CanAdd(k, entity))) && (r != Pass ==> r == Fail(PoolFull))
      ensures k != Other && r == Pass ==> Members(k) == old(Members(k)) + [entity]
      ensures forall k' :: k' != Other && (k' != k || r != Pass) ==> Members(k') == old(Members(k'))
    {
      if k == Other {
        return Fail(UnknownComponentType);
      }
      var added := AddToPool(Ordinal(k), entity);
      r := if added then Pass else Fail(PoolFull);
    }

    /** `AddComponent` on the `i`-th pool; the other pools and the entity list are untouched. */
    method AddToPool(i: nat, entity: nat) returns (ok: bool)
      requires Valid() && i < PoolCount
      modifies pools[i].Repr()
      ensures Valid()
      ensures entities == old(entities) && entityCount == old(entityCount)
      ensures ok <==> old(|pools[i].Members()| < MaxEntities && entity <= MaxEntities && entity !in pools[i].Members())
      ensures pools[i].Members() == if ok then old(pools[i].Members()) + [entity] else old(pools[i].Members())
      ensures forall j :: 0 <= j < PoolCount && j != i ==> pools[j].Members() == old(pools[j].Members())
    {
      var c := pools[i].AddComponent(entity);
      forall j | 0 <= j < PoolCount && j != i
        ensures pools[j].Valid() && pools[j].Members() == old(pools[j].Members())
      {
        assert pools[j].Repr() !! pools[i].Repr();
      }
      ok := c != null;
    }

    /**
     * The variadic CreateEntity: the counter advances before any component is added,
     * and the id joins `entities` only once every requested component was added.
     */
    method CreateEntityWith(kinds: seq<Kind>) returns (r: Result<nat, SceneError>)
      requires Valid()
      modifies Repr
      ensures Valid()
      ensures old(entityCount) >= MaxEntities ==> r == Err(TooManyEntities) && entityCount == old(entityCount) &&
                                                   forall k :: k != Other ==> Members(k) == old(Members(k))
      ensures old(entityCount) < MaxEntities ==> entityCount == old(entityCount) + 1
      ensures r.Ok? <==> old(entityCount) < MaxEntities && Distinct(kinds) &&
                         forall k :: k in kinds ==> k != Other && old(CanAdd(k, entityCount))
      ensures r.Ok? ==> r.value == old(entityCount) && entities == old(entities) + [r.value]
      ensures r.Ok? ==> forall k :: k != Other ==>
                Members(k) == if k in kinds then old(Members(k)) + [r.value] else old(Members(k))
      ensures r.Err? ==> entities == old(entities)
      ensures r.Err? && old(entityCount) < MaxEntities ==>
                exists i :: 0 <= i < |kinds| &&
                  forall k :: k != Other ==>
                    Members(k) == if k in kinds[..i] then old(Members(k)) + [old(entityCount)] else old(Members(k))
      ensures r == Err(UnknownComponentType) ==> Other in kinds
      ensures old(UniqueIds()) ==> UniqueIds()
    {
      if entityCount >= MaxEntities {
        return Err(TooManyEntities);
      }
      var entity := TakeId();
      label taken:
      assert forall k :: k != Other ==> Members(k) == old(Members(k));
      var added := AddComponents(kinds, entity);
      if added.Fail? {
        return Err(added.error);
      }
      AppendEntry(entity);
      r := Ok(entity);
    }

    /**
     * The loop of the variadic CreateEntity: add one component per requested
     * kind, stopping at the first that fails; the entity list is untouched.
     */
    method AddComponents(kinds: seq<Kind>, entity: nat) returns (r: Outcome<SceneError>)
      requires Valid()
      modifies Repr - {this}
      ensures Valid()
      ensures r == Pass <==> Distinct(kinds) && forall k :: k in kinds ==> k != Other && old(CanAdd(k, entity))
      ensures r == Pass ==> forall k :: k != Other ==>
                Members(k) == if k in kinds then old(Members(k)) + [entity] else old(Members(k))
      ensures r == Fail(UnknownComponentType) ==> Other in kinds
      ensures r.Fail? ==>
                exists i :: 0 <= i < |kinds| &&
                  (kinds[i] == Other || kinds[i] in kinds[..i] || !old(CanAdd(kinds[i], entity))) &&
                  forall k :: k != Other ==>
                    Members(k) == if k in kinds[..i] then old(Members(k)) + [entity] else old(Members(k))
    {
      var i := 0;
      while i < |kinds|
        invariant 0 <= i <= |kinds|
        invariant Valid()
        invariant Distinct(kinds[..i])
        invariant forall k :: k in kinds[..i] ==> k != Other && old(CanAdd(k, entity))
        invariant forall k :: k != Other ==>
                    Members(k) == if k in kinds[..i] then old(Members(k)) + [entity] else old(Members(k))
      {
        var k := kinds[i];
        label before:
        var added := AddComponentToEntity(k, entity);
        if added.Fail? {
          if k == Other {
            assert k in kinds;
          } else if k in kinds[..i] {
            assert !Distinct(kinds) by {
              var j :| 0 <= j < i && kinds[j] == k;
              assert kinds[j] == kinds[i];
            }
          } else {
            assert old@before(Members(k)) == old(Members(k));
            assert !old(CanAdd(k, entity));
          }
          return added;
        }
        PrefixExtend(kinds, i);
        assert k !in kinds[..i];
        i := i + 1;
      }
      assert kinds[..i] == kinds;
      r := Pass;
    }

    /** `entityCount++`, returning the value before the increment. */
    method TakeId() returns (id: nat)
      requires Valid() && entityCount < MaxEntities
      modifies this`entityCount
      ensures Valid() && id == old(entityCount) && entityCount == id + 1
      ensures old(UniqueIds()) ==> UniqueIds() && id !in entities
    {
      id := entityCount;
      entityCount := entityCount + 1;
    }

    /** `entities.emplace_back(id)` for an id the counter has already passed. */
    method AppendEntry(id: nat)
      requires Valid() && |entities| < entityCount && id < MaxEntities
      modifies this`entities
      ensures Valid() && entities == old(entities) + [id]
      ensures old(UniqueIds()) && id !in old(entities) && id < entityCount ==> UniqueIds()
    {
      entities := entities + [id];
    }

    /** `RemoveComponent` on the `i`-th pool; the other pools and the entity list are untouched. */
    method RemoveFromPool(i: nat, entity: nat)
      requires Valid() && i < PoolCount
      modifies pools[i].Repr()
      ensures Valid()
      ensures entity !in pools[i].Members()
      ensures pools[i].Members() == Removed(old(pools[i].Members()), entity)
      ensures pools[i].madeFor == old(pools[i].madeFor) - {entity}
      ensures forall j :: 0 <= j < PoolCount && j != i ==>
                pools[j].Members() == old(pools[j].Members()) && pools[j].madeFor == old(pools[j].madeFor)
    {
      var removed := pools[i].RemoveComponent(entity);
      forall j | 0 <= j < PoolCount && j != i
        ensures pools[j].Valid() && pools[j].Members() == old(pools[j].Members()) && pools[j].madeFor == old(pools[j].madeFor)
      {
        assert pools[j].Repr() !! pools[i].Repr();
      }
    }

    /**
     * The corrected DestroyEntity: remove `entity`'s components from every pool
     * except the chunk pool, then erase the id `entity` itself from `entities`.
     * The counter is left alone, so no live id is issued again. The source instead
     * erases at position `entity` and decrements the counter (DestroyEntityAsWritten).
     */
    method DestroyEntity(entity: nat) returns (ok: bool)
      requires Valid()
      modifies Repr
      ensures Valid()
      ensures ok <==> entity in old(entities)
      ensures !ok ==> entities == old(entities) && entityCount == old(entityCount) &&
                      forall k :: k != Other ==> Members(k) == old(Members(k)) && Made(k) == old(Made(k))
      ensures ok ==> entities == EraseEntity(old(entities), entity) && entityCount == old(entityCount)
      ensures ok ==> multiset(entities) == multiset(old(entities)) - multiset{entity}
      ensures ok ==> forall k :: k != Other && k != Chunk ==>
                       entity !in Members(k) && Members(k) == Removed(old(Members(k)), entity) &&
                       Made(k) == old(Made(k)) - {entity}
      ensures Members(Chunk) == old(Members(Chunk)) && Made(Chunk) == old(Made(Chunk))
      ensures old(UniqueIds()) ==> UniqueIds()
    {
      if entity !in entities {
        return false;
      }
      RemoveFromPools(entity);
      EraseEntry(entity);
      ok := true;
    }

    /**
     * DestroyEntity as the source writes it: the id is looked up by value, its
     * components leave the first nine pools, then the element at POSITION `entity`
     * is erased and the counter drops. When the id is listed but `entity` is not
     * below the list's length, that erase is undefined behaviour; the model then
     * reports EraseOutOfRange after the pool removals, with the list and the
     * counter as they were.
     */
    method DestroyEntityAsWritten(entity: nat) returns (r: Result<bool, SceneError>)
      requires Valid()
      modifies Repr
      ensures Valid()
      ensures r == Ok(false) <==> entity !in old(entities)
      ensures r == Ok(true) <==> entity in old(entities) && entity < |old(entities)|
      ensures r == Err(EraseOutOfRange) <==> entity in old(entities) && entity >= |old(entities)|
      ensures r != Ok(true) ==> entities == old(entities) && entityCount == old(entityCount)
      ensures r == Ok(true) ==> entities == EraseAt(old(entities), entity) && entityCount == old(entityCount) - 1
      ensures r == Ok(false) ==> forall k :: k != Other ==> Members(k) == old(Members(k)) && Made(k) == old(Made(k))
      ensures r != Ok(false) ==> forall k :: k != Other && k != Chunk ==>
                                   entity !in Members(k) && Members(k) == Removed(old(Members(k)), entity) &&
                                   Made(k) == old(Made(k)) - {entity}
      ensures Members(Chunk) == old(Members(Chunk)) && Made(Chunk) == old(Made(Chunk))
    {
      if entity !in entities {
        return Ok(false);
      }
      RemoveFromPools(entity);
      if entity >= |entities| {
        return Err(EraseOutOfRange);
      }
      EraseEntryAt(entity);
      r := Ok(true);
    }

    /**
     * RemoveComponent on the transform, rectTransform, renderable, camera, physics,
     * character, controllable, weapon and map pools, in that order; the chunk pool
     * (the last one) is not touched.
     */
    method RemoveFromPools(entity: nat)
      requires Valid()
      modifies Repr
      ensures Valid() && entities == old(entities) && entityCount == old(entityCount)
      ensures forall k :: k != Other && k != Chunk ==>
                entity !in Members(k) && Members(k) == Removed(old(Members(k)), entity) &&
                Made(k) == old(Made(k)) - {entity}
      ensures Members(Chunk) == old(Members(Chunk)) && Made(Chunk) == old(Made(Chunk))
    {
      RemoveFromLeadingPools(0, entity);
      forall k | k != Other && k != Chunk
        ensures entity !in Members(k) && Members(k) == Removed(old(Members(k)), entity)
        ensures Made(k) == old(Made(k)) - {entity}
      {
        var j := Ordinal(k);
        assert j < PoolCount - 1 && PoolOf(k) == pools[j];
      }
      assert Ordinal(Chunk) == PoolCount - 1;
    }

    /**
     * RemoveFromPools from pool position `i` on: RemoveComponent on every pool
     * from `i` up to, not including, the last (chunk) pool.
     */
    method RemoveFromLeadingPools(i: nat, entity: nat)
      requires Valid() && i <= PoolCount - 1
      modifies Repr
      decreases PoolCount - 1 - i
      ensures Valid() && entities == old(entities) && entityCount == old(entityCount)
      ensures forall j :: i <= j < PoolCount - 1 ==>
                entity !in pools[j].Members() && pools[j].Members() == Removed(old(pools[j].Members()), entity) &&
                pools[j].madeFor == old(pools[j].madeFor) - {entity}
      ensures forall j :: 0 <= j < PoolCount && !(i <= j < PoolCount - 1) ==>
                pools[j].Members() == old(pools[j].Members()) && pools[j].madeFor == old(pools[j].madeFor)
    {
      if i < PoolCount - 1 {
        RemoveFromPool(i, entity);
        RemoveFromLeadingPools(i + 1, entity);
      }
    }

    /** Erase the id `entity` from `entities`; the counter is kept. */
    method EraseEntry(entity: nat)
      requires Valid() && entity in entities
      modifies this`entities
      ensures Valid()
      ensures entities == EraseEntity(old(entities), entity)
      ensures multiset(entities) == multiset(old(entities)) - multiset{entity}
      ensures old(UniqueIds()) ==> UniqueIds()
      ensures forall c :: c != Other ==> Members(c) == old(Members(c)) && Made(c) == old(Made(c))
    {
      entities := EraseEntity(entities, entity);
      EraseEntityRemovesOne(old(entities), entity);
    }

    /** `entities.erase(entities.begin() + k); entityCount--;` */
    method EraseEntryAt(k: nat)
      requires Valid() && k < |entities|
      modifies this`entities, this`entityCount
      ensures Valid()
      ensures entities == EraseAt(old(entities), k) && entityCount == old(entityCount) - 1
      ensures forall c :: c != Other ==> Members(c) == old(Members(c)) && Made(c) == old(Made(c))
    {
      entities := EraseAt(entities, k);
      entityCount := entityCount - 1;
    }

    function GetEntities(): (r: seq<nat>)
      reads this, Repr
      requires Valid()
      ensures |r| <= entityCount && forall e :: e in r ==> e < MaxEntities
    {
      entities
    }

    method SetWorld(e: nat)
      modifies this`worldEntity
      ensures GetWorld() == e
    {
      worldEntity := e;
    }

    function GetWorld(): nat
      reads this
    {
      worldEntity
    }

    method SetPlayer(e: nat)
      modifies this`playerEntity
      ensures GetPlayer() == e
    {
      playerEntity := e;
    }

    function GetPlayer(): nat
      reads this
    {
      playerEntity
    }

    /** The component of kind `k` held by `entity`, or null (also for an unknown kind). */
    function GetComponent(k: Kind, entity: nat): (c: Component?)
      reads this, Repr
      requires Valid()
      ensures c == null <==> k == Other || entity !in Members(k)
      ensures c != null ==> c.kind == k && entity in Made(k) && c == Made(k)[entity]
    {
      if k == Other then null else PoolOf(k).GetComponent(entity)
    }
  }

  /** A new scene after three CreateEntity calls: entities [0, 1, 2], counter 3. */
  method ThreeEntities() returns (s: GameScene)
    ensures s.Valid() && fresh(s.Repr)
    ensures s.entities == [0, 1, 2] && s.entityCount == 3 && s.UniqueIds()
  {
    s := new GameScene();
    var a := s.CreateEntity();
    var b := s.CreateEntity();
    var c := s.CreateEntity();
  }

  /** From [0, 1, 2], DestroyEntity as written of the id 0 leaves [1, 2] and the counter at 2. */
  method DestroyFirstAsWritten() returns (s: GameScene)
    ensures s.Valid() && fresh(s.Repr)
    ensures s.entities == [1, 2] && s.entityCount == 2
  {
    s := ThreeEntities();
    var first := s.DestroyEntityAsWritten(0);
    assert EraseAt([0, 1, 2], 0) == [1, 2];
  }

  /**
   * DestroyEntity as written erases the wrong entity: from [0, 1, 2], destroying 0
   * leaves [1, 2], and destroying 1 then erases the id 2 and keeps the id 1.
   */
  method WrongEraseAsWritten() returns (s: GameScene, r: Result<bool, SceneError>)
    ensures r == Ok(true) && s.entities == [1]
  {
    s := DestroyFirstAsWritten();
    r := s.DestroyEntityAsWritten(1);
  }

  /**
   * DestroyEntity as written reaches an erase past the end: from [0, 1, 2],
   * destroying 0 leaves [1, 2], and destroying 2 then finds the id 2 and erases
   * at position 2 of a two-element list.
   */
  method EraseOutOfRangeAsWritten() returns (s: GameScene, r: Result<bool, SceneError>)
    ensures r == Err(EraseOutOfRange) && s.entities == [1, 2]
  {
    s := DestroyFirstAsWritten();
    r := s.DestroyEntityAsWritten(2);
  }

  /**
   * DestroyEntity as written lowers the counter, so a live id is issued again:
   * from [0, 1, 2], destroying 0 and creating an entity gives [1, 2, 2].
   */
  method ReissueAsWritten() returns (s: GameScene)
    ensures s.Valid() && s.entities == [1, 2, 2] && !s.UniqueIds()
  {
    s := DestroyFirstAsWritten();
    var created := s.CreateEntity();
    assert s.entities == [1, 2] + [2] == [1, 2, 2];
    assert multiset(s.entities)[2] == 2;
  }

  /** The same run with the corrected DestroyEntity: the new entity gets the fresh id 3. */
  method ReissueCorrected() returns (s: GameScene)
    ensures s.Valid() && s.entities == [1, 2, 3] && s.UniqueIds()
  {
    s := ThreeEntities();
    var first := s.DestroyEntity(0);
    assert EraseEntity([0, 1, 2], 0) == [1, 2];
    var created := s.CreateEntity();
  }
}
