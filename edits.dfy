/**
 * Block placement and removal on a chunk (Chunk::AddBlock, AddBlocks,
 * RemoveBlock, RemoveBlocks in src/core/world/Chunk.cpp). The chunks live in
 * an arena; an edit changes one block and the dirty flags of the edited
 * chunk and of the neighbours that share the edited face.
 */
module Edits {
  import opened Wrappers
  import opened Definitions
  import opened Blocks
  import opened Chunks
  import opened Arena

  /** The in-chunk branch of AddBlock: activate the block with material `d`, then mark dirty. */
  function Place(world: seq<Chunk>, k: nat, l: Pos, d: BlockData): (r: seq<Chunk>)
    requires Sized(world) && k < |world| && InBounds(l)
    ensures SameLayout(world, r)
  {
    var ch := world[k];
    var i := Index(l);
    Touch(world[k := ch.(blocks := ch.blocks[i := ch.blocks[i].SetActive(true).SetData(d)])], k, l)
  }

  /** The in-chunk branch of RemoveBlock: deactivate the block, keep its material, mark dirty. */
  function Unplace(world: seq<Chunk>, k: nat, l: Pos): (r: seq<Chunk>)
    requires Sized(world) && k < |world| && InBounds(l)
    ensures SameLayout(world, r)
  {
    var ch := world[k];
    var i := Index(l);
    Touch(world[k := ch.(blocks := ch.blocks[i := ch.blocks[i].SetActive(false)])], k, l)
  }

  /**
   * AddBlock(p, id) asked of chunk `k`: the placement result and the new
   * arena. An occupied target refuses; a target outside the chunk goes to
   * the forwarding neighbour, or is refused when there is none.
   */
  function AddBlockSpec(world: seq<Chunk>, k: nat, p: Pos, id: int, table: MaterialTable): (r: (bool, seq<Chunk>))
    requires WorldOk(world) && k < |world| && id in table
    ensures SameLayout(world, r.1)
    decreases Reach(world[k], p)
  {
    var e := CheckBlockExists(world[k], p);
    if e.found then (false, world)
    else if e.outOfBounds then
      match Forward(world[k], p)
      case None => (false, world)
      case Some(j) =>
        ForwardCloser(world, k, p);
        AddBlockSpec(world, j, p, id, table)
    else (true, Place(world, k, GetBlockIndex(world[k], p), table[id]))
  }

  /** Mirrors the in-chunk branch of AddBlock / AddBlocks on the arena. */
  method PlaceBlock(world: array<Chunk>, k: nat, l: Pos, d: BlockData)
    requires WorldOk(world[..]) && k < world.Length && InBounds(l)
    modifies world
    ensures world[..] == Place(old(world[..]), k, l, d)
  {
    var ch := world[k];
    var i := Index(l);
    world[k] := ch.(blocks := ch.blocks[i := ch.blocks[i].SetActive(true).SetData(d)]);
    SetDirty(world, ch.links.left, l.x == 0);
    SetDirty(world, ch.links.right, l.x == ChunkSize - 1);
    SetDirty(world, ch.links.back, l.z == 0);
    SetDirty(world, ch.links.front, l.z == ChunkSize - 1);
    world[k] := world[k].(dirty := true);
  }

  /** Mirrors the in-chunk branch of RemoveBlock / RemoveBlocks on the arena. */
  method UnplaceBlock(world: array<Chunk>, k: nat, l: Pos)
    requires WorldOk(world[..]) && k < world.Length && InBounds(l)
    modifies world
    ensures world[..] == Unplace(old(world[..]), k, l)
  {
    var ch := world[k];
    var i := Index(l);
    world[k] := ch.(blocks := ch.blocks[i := ch.blocks[i].SetActive(false)]);
    SetDirty(world, ch.links.left, l.x == 0);
    SetDirty(world, ch.links.right, l.x == ChunkSize - 1);
    SetDirty(world, ch.links.back, l.z == 0);
    SetDirty(world, ch.links.front, l.z == ChunkSize - 1);
    world[k] := world[k].(dirty := true);
  }

  /** `if (touched && link) link->dirty = true;` */
  method SetDirty(world: array<Chunk>, link: Option<nat>, touched: bool)
    modifies world
    ensures world[..] == MarkDirty(old(world[..]), link, touched)
  {
    if touched && link.Some? && link.value < world.Length {
      world[link.value] := world[link.value].(dirty := true);
    }
  }

  /** Chunk::AddBlock: place block `id` at world position `p`, forwarding across chunk borders. */
  method AddBlock(world: array<Chunk>, k: nat, p: Pos, id: int, table: MaterialTable) returns (ok: bool)
    requires WorldOk(world[..]) && k < world.Length && id in table
    modifies world
    ensures (ok, world[..]) == AddBlockSpec(old(world[..]), k, p, id, table)
    decreases Reach(world[k], p)
  {
    var e := CheckBlockExists(world[k], p);
    if e.found {
      return false;
    }
    var l := GetBlockIndex(world[k], p);
    var n := world[k].links;
    if e.outOfBounds {
      if Forward(world[k], p).Some? {
        ForwardCloser(world[..], k, p);
      }
      if l.x < 0 && n.left.Some? {
        ok := AddBlock(world, n.left.value, p, id, table);
      } else if l.x >= ChunkSize && n.right.Some? {
        ok := AddBlock(world, n.right.value, p, id, table);
      } else if l.z < 0 && n.back.Some? {
        ok := AddBlock(world, n.back.value, p, id, table);
      } else if l.z >= ChunkSize && n.front.Some? {
        ok := AddBlock(world, n.front.value, p, id, table);
      } else {
        ok := false;
      }
      return;
    }
    PlaceBlock(world, k, l, table[id]);
    ok := true;
  }

  /**
   * Inside the chunk, AddBlock succeeds iff the target is empty; it then
   * activates the target with the table's material, marks the chunk dirty
   * and marks dirty exactly the neighbours sharing the touched face; a
   * refusal changes nothing.
   */
  lemma AddBlockInChunk(world: seq<Chunk>, k: nat, p: Pos, id: int, table: MaterialTable)
    requires WorldOk(world) && k < |world| && id in table
    requires InBounds(GetBlockIndex(world[k], p))
    ensures var r := AddBlockSpec(world, k, p, id, table);
      var l := GetBlockIndex(world[k], p);
      (r.0 <==> !world[k].blocks[Index(l)].IsActive()) &&
      (!r.0 ==> r.1 == world) &&
      (r.0 ==> r.1[k].blocks == world[k].blocks[Index(l) := Block(table[id], true)] && r.1[k].dirty) &&
      (r.0 ==> forall j :: 0 <= j < |world| && j != k ==>
         r.1[j] == world[j].(dirty := world[j].dirty || Touches(world[k], l, j)))
  {
  }

  /** AddBlock behaves as if asked of the chunk the forwarding chain ends in. */
  lemma {:induction false} AddBlockFollowsChain(world: seq<Chunk>, k: nat, p: Pos, id: int, table: MaterialTable)
    requires WorldOk(world) && k < |world| && id in table
    ensures AddBlockSpec(world, k, p, id, table) == AddBlockSpec(world, Resolve(world, k, p), p, id, table)
    decreases Reach(world[k], p)
  {
    match Forward(world[k], p)
    case None =>
    case Some(j) =>
      ForwardCloser(world, k, p);
      AddBlockFollowsChain(world, j, p, id, table);
  }

  /**
   * The whole effect of AddBlock: it places at most one block, in the chunk
   * `r` where forwarding stops, and only if the position lies inside `r`
   * (so a y overflow or a missing neighbour is refused) and is empty there;
   * no other chunk's blocks change, and a refusal changes nothing at all.
   */
  lemma AddBlockEffect(world: seq<Chunk>, k: nat, p: Pos, id: int, table: MaterialTable)
    requires WorldOk(world) && k < |world| && id in table
    ensures var res := AddBlockSpec(world, k, p, id, table);
      var r := Resolve(world, k, p);
      var l := GetBlockIndex(world[r], p);
      (res.0 <==> InBounds(l) && !world[r].blocks[Index(l)].IsActive()) &&
      (!res.0 ==> res.1 == world) &&
      (res.0 ==> res.1[r].blocks == world[r].blocks[Index(l) := Block(table[id], true)]) &&
      (forall j :: 0 <= j < |world| && j != r ==> res.1[j].blocks == world[j].blocks)
  {
    var r := Resolve(world, k, p);
    AddBlockFollowsChain(world, k, p, id, table);
    if InBounds(GetBlockIndex(world[r], p)) {
      AddBlockInChunk(world, r, p, id, table);
    }
  }

  /** AddBlock never deactivates a block. */
  lemma AddBlockNeverClears(world: seq<Chunk>, k: nat, p: Pos, id: int, table: MaterialTable)
    requires WorldOk(world) && k < |world| && id in table
    ensures var w := AddBlockSpec(world, k, p, id, table).1;
      forall j, i :: 0 <= j < |world| && 0 <= i < Volume && world[j].blocks[i].IsActive() ==> w[j].blocks[i].IsActive()
  {
    AddBlockEffect(world, k, p, id, table);
  }

  /** A request that leaves chunk `k` never changes the blocks of `k` itself. */
  lemma ForwardedKeepsOwnBlocks(world: seq<Chunk>, k: nat, p: Pos, id: int, table: MaterialTable)
    requires WorldOk(world) && k < |world| && id in table
    requires !InBounds(GetBlockIndex(world[k], p))
    ensures AddBlockSpec(world, k, p, id, table).1[k].blocks == world[k].blocks
  {
    AddBlockEffect(world, k, p, id, table);
    var r := Resolve(world, k, p);
    if r == k {
      assert !AddBlockSpec(world, k, p, id, table).0;
    }
  }

  /**
   * AddBlocks(positions, ids) on chunk `k` with matching lengths: every pair
   * is handled like AddBlock, in order; the result is true iff some pair was
   * placed inside chunk `k` itself (forwarded placements do not count).
   */
  function AddBlocksSpec(world: seq<Chunk>, k: nat, ps: seq<Pos>, ids: seq<int>, table: MaterialTable): (r: (bool, seq<Chunk>))
    requires WorldOk(world) && k < |world| && |ps| == |ids|
    requires forall i :: 0 <= i < |ids| ==> ids[i] in table
    ensures SameLayout(world, r.1)
    decreases |ps|
  {
    if |ps| == 0 then (false, world)
    else
      var n := |ps| - 1;
      var before := AddBlocksSpec(world, k, ps[..n], ids[..n], table);
      SameLayoutKeepsOk(world, before.1);
      var step := AddBlockSpec(before.1, k, ps[n], ids[n], table);
      SameLayoutTransitive(world, before.1, step.1);
      (before.0 || (step.0 && InBounds(GetBlockIndex(world[k], ps[n]))), step.1)
  }

  /**
   * Chunk::AddBlocks: mismatched lengths are refused with no change;
   * otherwise each pair is placed in turn.
   */
  method AddBlocks(world: array<Chunk>, k: nat, positions: seq<Pos>, ids: seq<int>, table: MaterialTable)
    returns (success: bool)
    requires WorldOk(world[..]) && k < world.Length
    requires forall i :: 0 <= i < |ids| ==> ids[i] in table
    modifies world
    ensures |positions| != |ids| ==> !success && world[..] == old(world[..])
    ensures |positions| == |ids| ==>
      (success, world[..]) == AddBlocksSpec(old(world[..]), k, positions, ids, table)
  {
    if |positions| != |ids| {
      return false;
    }
    success := false;
    ghost var w0 := world[..];
    var i := 0;
    while i < |positions|
      invariant 0 <= i <= |positions|
      invariant AddBlocksSpec(w0, k, positions[..i], ids[..i], table) == (success, world[..])
      invariant WorldOk(world[..])
    {
      AddBlocksSpecStep(w0, k, positions, ids, table, i);
      var placed := AddOne(world, k, positions[i], ids[i], table);
      success := success || placed;
      SameLayoutKeepsOk(w0, world[..]);
      i := i + 1;
    }
    assert positions[..i] == positions && ids[..i] == ids;
  }

  /** One more pair of AddBlocks is one more AddBlock on the arena reached so far. */
  lemma AddBlocksSpecStep(world: seq<Chunk>, k: nat, ps: seq<Pos>, ids: seq<int>, table: MaterialTable, i: nat)
    requires WorldOk(world) && k < |world| && |ps| == |ids| && i < |ps|
    requires forall j :: 0 <= j < |ids| ==> ids[j] in table
    ensures var before := AddBlocksSpec(world, k, ps[..i], ids[..i], table);
      WorldOk(before.1) &&
      AddBlocksSpec(world, k, ps[..i + 1], ids[..i + 1], table) ==
        var step := AddBlockSpec(before.1, k, ps[i], ids[i], table);
        (before.0 || (step.0 && InBounds(GetBlockIndex(world[k], ps[i]))), step.1)
  {
    assert ps[..i + 1][..i] == ps[..i] && ids[..i + 1][..i] == ids[..i];
    SameLayoutKeepsOk(world, AddBlocksSpec(world, k, ps[..i], ids[..i], table).1);
  }

  /** One pass of the AddBlocks loop: true iff the block was placed inside chunk `k`. */
  method AddOne(world: array<Chunk>, k: nat, p: Pos, id: int, table: MaterialTable) returns (placed: bool)
    requires WorldOk(world[..]) && k < world.Length && id in table
    modifies world
    ensures var step := AddBlockSpec(old(world[..]), k, p, id, table);
      world[..] == step.1 && placed == (step.0 && InBounds(GetBlockIndex(old(world[k]), p)))
  {
    placed := false;
    var e := CheckBlockExists(world[k], p);
    if e.found {
      return;
    }
    var l := GetBlockIndex(world[k], p);
    var n := world[k].links;
    if e.outOfBounds {
      if Forward(world[k], p).Some? {
        ForwardCloser(world[..], k, p);
      }
      var forwarded: bool;
      if l.x < 0 && n.left.Some? {
        forwarded := AddBlock(world, n.left.value, p, id, table);
      } else if l.x >= ChunkSize && n.right.Some? {
        forwarded := AddBlock(world, n.right.value, p, id, table);
      } else if l.z < 0 && n.back.Some? {
        forwarded := AddBlock(world, n.back.value, p, id, table);
      } else if l.z >= ChunkSize && n.front.Some? {
        forwarded := AddBlock(world, n.front.value, p, id, table);
      }
    } else {
      PlaceBlock(world, k, l, table[id]);
      placed := true;
    }
  }

  /** Some block of the chunk went from inactive to active. */
  ghost predicate Gained(before: Chunk, after: Chunk)
    requires WellFormed(before) && WellFormed(after)
  {
    exists i :: 0 <= i < Volume && !before.blocks[i].IsActive() && after.blocks[i].IsActive()
  }

  /** Some block of the chunk went from active to inactive. */
  ghost predicate Lost(before: Chunk, after: Chunk)
    requires WellFormed(before) && WellFormed(after)
  {
    exists i :: 0 <= i < Volume && before.blocks[i].IsActive() && !after.blocks[i].IsActive()
  }

  /**
   * AddBlocks never deactivates a block, and it reports true iff at least
   * one block of chunk `k` itself was placed.
   */
  lemma {:induction false} AddBlocksSuccess(world: seq<Chunk>, k: nat, ps: seq<Pos>, ids: seq<int>, table: MaterialTable)
    requires WorldOk(world) && k < |world| && |ps| == |ids|
    requires forall i :: 0 <= i < |ids| ==> ids[i] in table
    ensures var r := AddBlocksSpec(world, k, ps, ids, table);
      WorldOk(r.1) &&
      (forall j, i :: 0 <= j < |world| && 0 <= i < Volume && world[j].blocks[i].IsActive() ==> r.1[j].blocks[i].IsActive()) &&
      (r.0 <==> Gained(world[k], r.1[k]))
    decreases |ps|
  {
    var r := AddBlocksSpec(world, k, ps, ids, table);
    SameLayoutKeepsOk(world, r.1);
    if |ps| == 0 {
      assert !Gained(world[k], r.1[k]);
    } else {
      var n := |ps| - 1;
      var before := AddBlocksSpec(world, k, ps[..n], ids[..n], table);
      AddBlocksSuccess(world, k, ps[..n], ids[..n], table);
      var w1 := before.1;
      var step := AddBlockSpec(w1, k, ps[n], ids[n], table);
      assert r == (before.0 || (step.0 && InBounds(GetBlockIndex(world[k], ps[n]))), step.1);
      AddBlockNeverClears(w1, k, ps[n], ids[n], table);
      var l := GetBlockIndex(world[k], ps[n]);
      assert GetBlockIndex(w1[k], ps[n]) == l;
      if InBounds(l) {
        AddBlockInChunk(w1, k, ps[n], ids[n], table);
      } else {
        ForwardedKeepsOwnBlocks(w1, k, ps[n], ids[n], table);
      }
      if r.0 {
        if before.0 {
          var i :| 0 <= i < Volume && !world[k].blocks[i].IsActive() && w1[k].blocks[i].IsActive();
          assert r.1[k].blocks[i].IsActive();
        } else {
          var i := Index(l);
          assert !w1[k].blocks[i].IsActive();
          assert r.1[k].blocks[i].IsActive();
        }
      }
      if Gained(world[k], r.1[k]) {
        var i :| 0 <= i < Volume && !world[k].blocks[i].IsActive() && r.1[k].blocks[i].IsActive();
        if !w1[k].blocks[i].IsActive() {
          assert step.0 && InBounds(l);
        }
      }
    }
  }

  /** RemoveBlock(p) on chunk `k`: only an active block inside the chunk is removed. */
  function RemoveBlockSpec(world: seq<Chunk>, k: nat, p: Pos): (r: (bool, seq<Chunk>))
    requires WorldOk(world) && k < |world|
    ensures SameLayout(world, r.1)
  {
    var e := CheckBlockExists(world[k], p);
    if !e.found then (false, world)
    else (true, Unplace(world, k, GetBlockIndex(world[k], p)))
  }

  /** Chunk::RemoveBlock: clear the active block at `p`; there is no forwarding. */
  method RemoveBlock(world: array<Chunk>, k: nat, p: Pos) returns (ok: bool)
    requires WorldOk(world[..]) && k < world.Length
    modifies world
    ensures (ok, world[..]) == RemoveBlockSpec(old(world[..]), k, p)
  {
    var e := CheckBlockExists(world[k], p);
    if !e.found {
      return false;
    }
    var l := GetBlockIndex(world[k], p);
    UnplaceBlock(world, k, l);
    ok := true;
  }

  /**
   * RemoveBlock succeeds iff an active block sits at `p` inside chunk `k`;
   * it then clears only the flag (the material stays), marks the chunk and
   * the neighbours sharing the touched face dirty, and changes nothing else.
   * A refusal changes nothing.
   */
  lemma RemoveBlockEffect(world: seq<Chunk>, k: nat, p: Pos)
    requires WorldOk(world) && k < |world|
    ensures var r := RemoveBlockSpec(world, k, p);
      var l := GetBlockIndex(world[k], p);
      (r.0 <==> InBounds(l) && world[k].blocks[Index(l)].IsActive()) &&
      (!r.0 ==> r.1 == world) &&
      (r.0 ==> r.1[k].blocks == world[k].blocks[Index(l) := Block(world[k].blocks[Index(l)].GetData(), false)] && r.1[k].dirty) &&
      (r.0 ==> forall j :: 0 <= j < |world| && j != k ==>
         r.1[j] == world[j].(dirty := world[j].dirty || Touches(world[k], l, j)))
  {
  }

  /** RemoveBlocks(positions): each position is handled like RemoveBlock, in order. */
  function RemoveBlocksSpec(world: seq<Chunk>, k: nat, ps: seq<Pos>): (r: (bool, seq<Chunk>))
    requires WorldOk(world) && k < |world|
    ensures SameLayout(world, r.1)
    decreases |ps|
  {
    if |ps| == 0 then (false, world)
    else
      var n := |ps| - 1;
      var before := RemoveBlocksSpec(world, k, ps[..n]);
      SameLayoutKeepsOk(world, before.1);
      var step := RemoveBlockSpec(before.1, k, ps[n]);
      SameLayoutTransitive(world, before.1, step.1);
      (before.0 || step.0, step.1)
  }

  /** Chunk::RemoveBlocks: skip positions without an active block, clear the others. */
  method RemoveBlocks(world: array<Chunk>, k: nat, positions: seq<Pos>) returns (success: bool)
    requires WorldOk(world[..]) && k < world.Length
    modifies world
    ensures (success, world[..]) == RemoveBlocksSpec(old(world[..]), k, positions)
  {
    ghost var w0 := world[..];
    success := false;
    var i := 0;
    while i < |positions|
      invariant 0 <= i <= |positions|
      invariant RemoveBlocksSpec(w0, k, positions[..i]) == (success, world[..])
      invariant WorldOk(world[..])
    {
      assert positions[..i + 1][..i] == positions[..i];
      // the loop body repeats RemoveBlock's check and removal for positions[i]
      var removed := RemoveBlock(world, k, positions[i]);
      success := success || removed;
      SameLayoutKeepsOk(w0, world[..]);
      i := i + 1;
    }
    assert positions[..i] == positions;
  }

  /**
   * RemoveBlocks never activates a block, changes no other chunk's blocks,
   * and reports true iff at least one block of chunk `k` was cleared.
   */
  lemma {:induction false} RemoveBlocksSuccess(world: seq<Chunk>, k: nat, ps: seq<Pos>)
    requires WorldOk(world) && k < |world|
    ensures var r := RemoveBlocksSpec(world, k, ps);
      WorldOk(r.1) &&
      (forall j, i :: 0 <= j < |world| && 0 <= i < Volume && !world[j].blocks[i].IsActive() ==> !r.1[j].blocks[i].IsActive()) &&
      (forall j :: 0 <= j < |world| && j != k ==> r.1[j].blocks == world[j].blocks) &&
      (r.0 <==> Lost(world[k], r.1[k]))
    decreases |ps|
  {
    var r := RemoveBlocksSpec(world, k, ps);
    SameLayoutKeepsOk(world, r.1);
    if |ps| == 0 {
      assert !Lost(world[k], r.1[k]);
    } else {
      var n := |ps| - 1;
      var before := RemoveBlocksSpec(world, k, ps[..n]);
      RemoveBlocksSuccess(world, k, ps[..n]);
      var w1 := before.1;
      var step := RemoveBlockSpec(w1, k, ps[n]);
      assert r == (before.0 || step.0, step.1);
      RemoveBlockEffect(w1, k, ps[n]);
      var l := GetBlockIndex(w1[k], ps[n]);
      forall j, i | 0 <= j < |world| && 0 <= i < Volume && !w1[j].blocks[i].IsActive()
        ensures !r.1[j].blocks[i].IsActive()
      {
        if step.0 && j == k {
          assert r.1[k].blocks == w1[k].blocks[Index(l) := Block(w1[k].blocks[Index(l)].GetData(), false)];
        }
      }
      if r.0 {
        if before.0 {
          var i :| 0 <= i < Volume && world[k].blocks[i].IsActive() && !w1[k].blocks[i].IsActive();
          assert !r.1[k].blocks[i].IsActive();
        } else {
          var i := Index(l);
          assert w1[k].blocks[i].IsActive();
          assert !r.1[k].blocks[i].IsActive();
        }
      }
      if Lost(world[k], r.1[k]) {
        var i :| 0 <= i < Volume && world[k].blocks[i].IsActive() && !r.1[k].blocks[i].IsActive();
        if w1[k].blocks[i].IsActive() {
          assert step.0;
        }
      }
    }
  }
}
