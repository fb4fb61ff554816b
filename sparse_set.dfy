/**
 * The fixed-capacity sparse set of entity ids (src/core/utility/SparseSet.cpp).
 * `dense[..count]` lists the members in insertion/swap order and `sparse[v]`
 * is the dense slot of member `v`; sparse slots of non-members hold anything.
 */
module SparseSets {

  /** No value occurs twice. */
  ghost predicate Distinct<T>(s: seq<T>) {
    forall i, j :: 0 <= i < j < |s| ==> s[i] != s[j]
  }

  /** Delete by swap-with-last: slot `k` receives the last element, which is then dropped. */
  function SwapRemove<T>(s: seq<T>, k: int): (r: seq<T>)
    requires 0 <= k < |s|
    ensures |r| == |s| - 1
  {
    s[k := s[|s| - 1]][..|s| - 1]
  }

  /** Swap-with-last removes exactly `s[k]` and keeps every other member. */
  lemma SwapRemoveMembers<T>(s: seq<T>, k: int)
    requires 0 <= k < |s| && Distinct(s)
    ensures Distinct(SwapRemove(s, k))
    ensures forall v :: v in SwapRemove(s, k) <==> v in s && v != s[k]
  {
    var r := SwapRemove(s, k);
    forall v ensures v in r <==> v in s && v != s[k] {
      if v in r {
        var i :| 0 <= i < |r| && r[i] == v;
        if i == k { assert v == s[|s| - 1]; } else { assert v == s[i]; }
      }
      if v in s && v != s[k] {
        var i :| 0 <= i < |s| && s[i] == v;
        if i == |s| - 1 { assert r[k] == v; } else { assert r[i] == v; }
      }
    }
  }

  /** The elements of `s` that also occur in `t`, in the order of `s`. */
  function Common(s: seq<nat>, t: seq<nat>): (r: seq<nat>)
    ensures |r| <= |s|
    ensures forall v :: v in r <==> v in s && v in t
  {
    if s == [] then []
    else if s[|s| - 1] in t then Common(s[..|s| - 1], t) + [s[|s| - 1]]
    else Common(s[..|s| - 1], t)
  }

  lemma {:induction false} CommonDistinct(s: seq<nat>, t: seq<nat>)
    requires Distinct(s)
    ensures Distinct(Common(s, t))
  {
    if s != [] {
      CommonDistinct(s[..|s| - 1], t);
    }
  }

  /** A duplicate-free sequence drawn from a duplicate-free `b` is no longer than `b`. */
  lemma {:induction false} DistinctSubLength(a: seq<nat>, b: seq<nat>)
    requires Distinct(a) && Distinct(b)
    requires forall v :: v in a ==> v in b
    ensures |a| <= |b|
  {
    if a != [] {
      assert a[0] in a;
      var i :| 0 <= i < |b| && b[i] == a[0];
      var b' := b[..i] + b[i + 1..];
      forall v | v in a[1..] ensures v in b' {
        assert v in a;
        var j :| 0 <= j < |b| && b[j] == v;
        assert v != a[0];
        if j < i { assert b'[j] == v; } else { assert b'[j - 1] == v; }
      }
      assert Distinct(b') by {
        forall p, q | 0 <= p < q < |b'| ensures b'[p] != b'[q] {
          var p' := if p < i then p else p + 1;
          var q' := if q < i then q else q + 1;
          assert b'[p] == b[p'] && b'[q] == b[q'];
        }
      }
      DistinctSubLength(a[1..], b');
    }
  }

  class SparseSet {
    const sparse: array<nat>
    const dense: array<nat>
    const maxValue: nat
    const capacity: nat
    var count: nat

    /** The objects a set owns. */
    ghost function Repr(): set<object> {
      {this, sparse, dense}
    }

    ghost predicate Valid()
      reads this, sparse, dense
    {
      sparse != dense &&
      sparse.Length == maxValue + 1 && dense.Length == capacity && count <= capacity &&
      forall i :: 0 <= i < count ==> dense[i] <= maxValue && sparse[dense[i]] == i
    }

    /** The members, in dense order. */
    ghost function Elements(): seq<nat>
      reads this, dense
      requires count <= dense.Length
    {
      dense[..count]
    }

    lemma ElementsDistinct()
      requires Valid()
      ensures Distinct(Elements())
    {
      forall i, j | 0 <= i < j < count ensures dense[i] != dense[j] {
        assert sparse[dense[i]] == i && sparse[dense[j]] == j;
      }
    }

    /** The constructor allocates both arrays; the sparse slots are left as they come. */
    constructor (maxVal: nat, cap: nat)
      ensures Valid() && fresh(Repr() - {this})
      ensures maxValue == maxVal && capacity == cap && Elements() == []
    {
      sparse := new nat[maxVal + 1];
      dense := new nat[cap];
      maxValue := maxVal;
      capacity := cap;
      count := 0;
    }

    /** The dense slot of `val`, or -1 when `val` is not a member (or exceeds maxValue). */
    function Search(val: nat): (r: int)
      reads this, sparse, dense
      requires Valid()
      ensures r == -1 <==> val !in Elements()
      ensures r != -1 ==> 0 <= r < count && dense[r] == val
    {
      if val > maxValue then -1
      else if sparse[val] < count && dense[sparse[val]] == val then sparse[val]
      else -1
    }

    method Insert(val: nat) returns (ok: bool)
      requires Valid()
      modifies this, sparse, dense
      ensures Valid()
      ensures ok <==> val <= maxValue && old(count) < capacity && val !in old(Elements())
      ensures Elements() == if ok then old(Elements()) + [val] else old(Elements())
      ensures ok ==> Search(val) == old(count)
    {
      if val > maxValue {
        return false;
      }
      if count >= capacity {
        return false;
      }
      if Search(val) != -1 {
        return false;
      }
      sparse[val] := count;
      dense[count] := val;
      count := count + 1;
      ok := true;
    }

    method Delete(val: nat) returns (ok: bool)
      requires Valid()
      modifies this, sparse, dense
      ensures Valid()
      ensures ok <==> val in old(Elements())
      ensures Elements() == if ok then SwapRemove(old(Elements()), old(Search(val))) else old(Elements())
      ensures Search(val) == -1
    {
      if Search(val) == -1 {
        return false;
      }
      ghost var before := Elements();
      ElementsDistinct();
      var target := sparse[val];
      var last := dense[count - 1];
      dense[target] := last;
      sparse[last] := target;
      count := count - 1;
      assert Elements() == SwapRemove(before, target);
      SwapRemoveMembers(before, target);
      ok := true;
    }

    /** The member at dense slot `index`, or -1 past the end. */
    function Get(index: nat): (r: int)
      reads this, sparse, dense
      requires Valid()
      ensures index < count ==> r == Elements()[index]
      ensures index >= count ==> r == -1
    {
      if index < count then dense[index] else -1
    }

    function Count(): (r: nat)
      reads this, sparse, dense
      requires Valid()
      ensures r == |Elements()|
    {
      count
    }

    method Clear()
      requires Valid()
      modifies this
      ensures Valid() && Elements() == []
      ensures forall v :: Search(v) == -1
    {
      count := 0;
    }

    /**
     * A new set holding the values present in both sets. It walks the dense array of the
     * set with fewer members (of `other` on a tie) and inserts what the other set holds.
     */
    method Intersect(other: SparseSet) returns (result: SparseSet)
      requires Valid() && other.Valid()
      ensures fresh(result.Repr()) && result.Valid()
      ensures result.capacity == if capacity < other.capacity then capacity else other.capacity
      ensures result.maxValue == if maxValue < other.maxValue then other.maxValue else maxValue
      ensures result.Elements() == if count < other.count then Common(Elements(), other.Elements())
                                   else Common(other.Elements(), Elements())
      ensures forall v :: v in result.Elements() <==> v in Elements() && v in other.Elements()
    {
      var resultCap := if capacity < other.capacity then capacity else other.capacity;
      var resultMax := if maxValue < other.maxValue then other.maxValue else maxValue;
      result := new SparseSet(resultMax, resultCap);
      ElementsDistinct();
      other.ElementsDistinct();
      if count < other.count {
        IntersectInto(this, other, result);
      } else {
        IntersectInto(other, this, result);
      }
    }
  }

  /** The loop of Intersect: insert into `result` each member of `walk` that `probe` holds. */
  method IntersectInto(walk: SparseSet, probe: SparseSet, result: SparseSet)
    requires walk.Valid() && probe.Valid() && result.Valid() && result.Elements() == []
    requires result.Repr() !! walk.Repr() && result.Repr() !! probe.Repr()
    requires walk.maxValue <= result.maxValue
    requires result.capacity == walk.capacity || result.capacity == probe.capacity
    requires result.capacity <= walk.capacity && result.capacity <= probe.capacity
    requires Distinct(walk.Elements()) && Distinct(probe.Elements())
    modifies result, result.sparse, result.dense
    ensures result.Valid()
    ensures result.Elements() == Common(walk.Elements(), probe.Elements())
  {
    var i := 0;
    while i < walk.count
      invariant 0 <= i <= walk.count
      invariant result.Valid()
      invariant result.Elements() == Common(walk.Elements()[..i], probe.Elements())
    {
      var v := walk.dense[i];
      assert walk.Elements()[..i + 1] == walk.Elements()[..i] + [v];
      if probe.Search(v) != -1 {
        var next := Common(walk.Elements()[..i + 1], probe.Elements());
        assert next == result.Elements() + [v];
        CommonDistinct(walk.Elements()[..i + 1], probe.Elements());
        DistinctSubLength(next, probe.Elements());
        assert v !in result.Elements() by {
          assert v !in walk.Elements()[..i];
        }
        var ok := result.Insert(v);
        assert ok;
      }
      i := i + 1;
    }
    assert walk.Elements()[..walk.count] == walk.Elements();
  }
}
