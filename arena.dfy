/**
 * The chunks of a world as an arena: a sequence indexed by grid position in
 * which neighbour links are indices. The recursion of AddBlock and of the
 * occlusion probe follows these links; it terminates because every hop
 * brings the target position closer to the chunk, which holds as long as a
 * link always leads to the chunk 16 blocks away on the matching axis
 * (Coherent, the layout ProcessNoiseMap builds).
 */
module Arena {
  import opened Wrappers
  import opened Definitions
  import opened Chunks

  ghost predicate LinkTo(world: seq<Chunk>, link: Option<nat>, o: Offset)
  {
    link.Some? ==> link.value < |world| && world[link.value].offset == o
  }

  /** Every link points into the arena, at the chunk next to this one on the matching side. */
  ghost predicate Coherent(world: seq<Chunk>)
  {
    forall k :: 0 <= k < |world| ==>
      var o := world[k].offset;
      var n := world[k].links;
      LinkTo(world, n.left, Offset(o.x - ChunkSize, o.z)) &&
      LinkTo(world, n.right, Offset(o.x + ChunkSize, o.z)) &&
      LinkTo(world, n.back, Offset(o.x, o.z - ChunkSize)) &&
      LinkTo(world, n.front, Offset(o.x, o.z + ChunkSize))
  }

  ghost predicate Sized(world: seq<Chunk>)
  {
    forall k :: 0 <= k < |world| ==> WellFormed(world[k])
  }

  ghost predicate WorldOk(world: seq<Chunk>)
  {
    Sized(world) && Coherent(world)
  }

  /** Two arenas agree on everything but block contents and dirty flags. */
  ghost predicate SameLayout(a: seq<Chunk>, b: seq<Chunk>)
  {
    |a| == |b| &&
    forall k :: 0 <= k < |a| ==>
      |a[k].blocks| == |b[k].blocks| && a[k].offset == b[k].offset &&
      a[k].links == b[k].links && a[k].mesh == b[k].mesh
  }

  lemma SameLayoutKeepsOk(a: seq<Chunk>, b: seq<Chunk>)
    requires WorldOk(a) && SameLayout(a, b)
    ensures WorldOk(b)
  {
    forall k | 0 <= k < |b|
      ensures WellFormed(b[k])
    {
      assert WellFormed(a[k]);
    }
  }

  lemma SameLayoutTransitive(a: seq<Chunk>, b: seq<Chunk>, c: seq<Chunk>)
    requires SameLayout(a, b) && SameLayout(b, c)
    ensures SameLayout(a, c)
  {
  }

  /**
   * The neighbour an out-of-chunk request is handed to: the first of left
   * (x < 0), right (x >= 16), back (z < 0), front (z >= 16) whose test holds
   * and whose link exists. The tests form an else-if chain, so a missing
   * left or right neighbour falls through to back and front.
   */
  function Forward(ch: Chunk, p: Pos): (r: Option<nat>)
    ensures r.Some? ==> !InBounds(GetBlockIndex(ch, p))
  {
    var l := GetBlockIndex(ch, p);
    if l.x < 0 && ch.links.left.Some? then ch.links.left
    else if l.x >= ChunkSize && ch.links.right.Some? then ch.links.right
    else if l.z < 0 && ch.links.back.Some? then ch.links.back
    else if l.z >= ChunkSize && ch.links.front.Some? then ch.links.front
    else None
  }

  /** How far outside the chunk's x and z range `v` lies. */
  function Outside(v: int): nat
  {
    if v < 0 then -v else if v >= ChunkSize then v - ChunkSize + 1 else 0
  }

  /** Horizontal distance of `p` from the chunk: zero iff its x and z are in range. */
  function Reach(ch: Chunk, p: Pos): (r: nat)
    ensures r == 0 <==> 0 <= GetBlockIndex(ch, p).x < ChunkSize && 0 <= GetBlockIndex(ch, p).z < ChunkSize
  {
    var l := GetBlockIndex(ch, p);
    Outside(l.x) + Outside(l.z)
  }

  /** Every hop of the forwarding chain lands inside the arena and strictly closer to `p`. */
  lemma ForwardCloser(world: seq<Chunk>, k: nat, p: Pos)
    requires Coherent(world) && k < |world| && Forward(world[k], p).Some?
    ensures Forward(world[k], p).value < |world|
    ensures Reach(world[Forward(world[k], p).value], p) < Reach(world[k], p)
  {
  }

  /** The chunk the forwarding chain from chunk `k` ends in for position `p`. */
  function Resolve(world: seq<Chunk>, k: nat, p: Pos): (r: nat)
    requires Coherent(world) && k < |world|
    ensures r < |world| && Forward(world[r], p).None?
    ensures Reach(world[r], p) <= Reach(world[k], p)
    ensures r == k <==> Forward(world[k], p).None?
    decreases Reach(world[k], p)
  {
    match Forward(world[k], p)
    case None => k
    case Some(j) =>
      ForwardCloser(world, k, p);
      Resolve(world, j, p)
  }

  /** Marks the chunk behind `link` dirty when `touched` holds and the link exists. */
  function MarkDirty(world: seq<Chunk>, link: Option<nat>, touched: bool): seq<Chunk>
  {
    if touched && link.Some? && link.value < |world|
    then world[link.value := world[link.value].(dirty := true)]
    else world
  }

  /**
   * Whether editing local index `l` of `ch` changes what chunk `j` must draw:
   * `l` lies on the face `ch` shares with its linked neighbour `j`.
   */
  predicate Touches(ch: Chunk, l: Pos, j: nat)
  {
    (l.x == 0 && ch.links.left == Some(j)) ||
    (l.x == ChunkSize - 1 && ch.links.right == Some(j)) ||
    (l.z == 0 && ch.links.back == Some(j)) ||
    (l.z == ChunkSize - 1 && ch.links.front == Some(j))
  }

  /**
   * The dirty propagation after an edit at local index `l` of chunk `k`:
   * the neighbours sharing the touched face, then the chunk itself.
   */
  function Touch(world: seq<Chunk>, k: nat, l: Pos): (r: seq<Chunk>)
    requires k < |world|
    ensures |r| == |world| && r[k] == world[k].(dirty := true)
    ensures forall j :: 0 <= j < |world| && j != k ==>
      r[j] == world[j].(dirty := world[j].dirty || Touches(world[k], l, j))
  {
    var n := world[k].links;
    var w1 := MarkDirty(world, n.left, l.x == 0);
    var w2 := MarkDirty(w1, n.right, l.x == ChunkSize - 1);
    var w3 := MarkDirty(w2, n.back, l.z == 0);
    var w4 := MarkDirty(w3, n.front, l.z == ChunkSize - 1);
    w4[k := w4[k].(dirty := true)]
  }
}
