/**
 * Mesh generation of a chunk (Chunk::CullFaces, GetOcclusionValue,
 * CreateBlockData, CreateMesh, UpdateMesh and Update in
 * src/core/world/Chunk.cpp): hidden faces are culled, every visible face
 * becomes a quad of four vertices and two triangles, each vertex darkened
 * by the blocks around its corner, and the quad is split along the diagonal
 * that keeps the ambient occlusion smooth.
 */
module Meshing {
  import opened Wrappers
  import opened Definitions
  import opened Blocks
  import opened Chunks
  import opened Arena

  datatype Face = Front | Back | Right | Left | Top | Bottom

  /** The faces in the order CreateBlockData emits them; a face's position is its texture slot. */
  const Faces: seq<Face> := [Front, Back, Right, Left, Top, Bottom]

  function Slot(f: Face): (i: nat)
    ensures i < 6 && Faces[i] == f
  {
    match f
    case Front => 0
    case Back => 1
    case Right => 2
    case Left => 3
    case Top => 4
    case Bottom => 5
  }

  /** The outward normal of a face: front is +z, right is +x, top is +y. */
  function Normal(f: Face): Pos
  {
    match f
    case Front => Pos(0, 0, 1)
    case Back => Pos(0, 0, -1)
    case Right => Pos(1, 0, 0)
    case Left => Pos(-1, 0, 0)
    case Top => Pos(0, 1, 0)
    case Bottom => Pos(0, -1, 0)
  }

  /** The component of `a` along the normal of face `f`. */
  function Along(a: Pos, f: Face): int
  {
    match f
    case Front => a.z
    case Back => -a.z
    case Right => a.x
    case Left => -a.x
    case Top => a.y
    case Bottom => -a.y
  }

  /** The FaceCulling flags: true means the face is not drawn. */
  datatype Culling = Culling(front: bool, back: bool, left: bool, right: bool, top: bool, bottom: bool)

  const NoCulling: Culling := Culling(false, false, false, false, false, false)

  function Culled(c: Culling, f: Face): bool
  {
    match f
    case Front => c.front
    case Back => c.back
    case Right => c.right
    case Left => c.left
    case Top => c.top
    case Bottom => c.bottom
  }

  /** The neighbour link on the side of face `f`; top and bottom have none. */
  function SideLink(ch: Chunk, f: Face): Option<nat>
  {
    match f
    case Front => ch.links.front
    case Back => ch.links.back
    case Right => ch.links.right
    case Left => ch.links.left
    case Top => None
    case Bottom => None
  }

  /** A block outside the chunk's x or z range, seen from the neighbour on that side. */
  function Wrap(q: Pos): Pos
  {
    Pos(WrapAxis(q.x), q.y, WrapAxis(q.z))
  }

  function WrapAxis(v: int): int
  {
    if v < 0 then v + ChunkSize else if v >= ChunkSize then v - ChunkSize else v
  }

  /**
   * Whether face `f` of block `l` in chunk `k` is hidden: the block beyond
   * it inside the chunk is active and hides faces, or the block beyond it
   * lies in the neighbour on that side and is active there.
   */
  ghost predicate Hidden(world: seq<Chunk>, k: nat, l: Pos, f: Face)
    requires WorldOk(world) && k < |world| && InBounds(l)
  {
    var q := l.Plus(Normal(f));
    if InBounds(q) then
      var b := world[k].blocks[Index(q)];
      b.IsActive() && b.GetData().shouldCullFace
    else
      var link := SideLink(world[k], f);
      link.Some? && InBounds(Wrap(q)) && world[link.value].blocks[Index(Wrap(q))].IsActive()
  }

  /** Whether the block at `l` is active and hides faces touching it. */
  function Covers(ch: Chunk, l: Pos): bool
    requires WellFormed(ch) && InBounds(l)
  {
    GetBlock(ch, l).IsActive() && GetBlock(ch, l).GetData().shouldCullFace
  }

  /**
   * Chunk::CullFaces: each flag from the inner test against the block
   * beyond the face (active and hiding faces), overridden on the chunk's
   * border by the linked neighbour's block (active is enough there).
   */
  function CullFaces(world: seq<Chunk>, k: nat, l: Pos): (c: Culling)
    requires WorldOk(world) && k < |world| && InBounds(l)
    ensures !c.top <== l.y == ChunkHeight - 1
    ensures !c.bottom <== l.y == 0
  {
    var ch := world[k];
    var n := ch.links;
    var x, y, z := l.x, l.y, l.z;
    Culling(
      front := if z == ChunkSize - 1 && n.front.Some? then GetBlock(world[n.front.value], Pos(x, y, 0)).IsActive()
               else z < ChunkSize - 1 && Covers(ch, Pos(x, y, z + 1)),
      back := if z == 0 && n.back.Some? then GetBlock(world[n.back.value], Pos(x, y, ChunkSize - 1)).IsActive()
              else z > 0 && Covers(ch, Pos(x, y, z - 1)),
      left := if x == 0 && n.left.Some? then GetBlock(world[n.left.value], Pos(ChunkSize - 1, y, z)).IsActive()
              else x > 0 && Covers(ch, Pos(x - 1, y, z)),
      right := if x == ChunkSize - 1 && n.right.Some? then GetBlock(world[n.right.value], Pos(0, y, z)).IsActive()
               else x < ChunkSize - 1 && Covers(ch, Pos(x + 1, y, z)),
      top := y < ChunkHeight - 1 && Covers(ch, Pos(x, y + 1, z)),
      bottom := y > 0 && Covers(ch, Pos(x, y - 1, z)))
  }

  /** CullFaces culls exactly the hidden faces. */
  lemma CullExactlyHidden(world: seq<Chunk>, k: nat, l: Pos, f: Face)
    requires WorldOk(world) && k < |world| && InBounds(l)
    ensures Culled(CullFaces(world, k, l), f) <==> Hidden(world, k, l, f)
  {
    match f
    case Front => CullFront(world, k, l);
    case Back => CullBack(world, k, l);
    case Right => CullRight(world, k, l);
    case Left => CullLeft(world, k, l);
    case Top => CullTop(world, k, l);
    case Bottom => CullBottom(world, k, l);
  }

  lemma CullFront(world: seq<Chunk>, k: nat, l: Pos)
    requires WorldOk(world) && k < |world| && InBounds(l)
    ensures CullFaces(world, k, l).front <==> Hidden(world, k, l, Front)
  {
    var q := l.Plus(Normal(Front));
    assert q == Pos(l.x, l.y, l.z + 1);
    if l.z == ChunkSize - 1 {
      assert !InBounds(q);
      assert Wrap(q) == Pos(l.x, l.y, 0);
    } else {
      assert InBounds(q);
    }
  }

  lemma CullBack(world: seq<Chunk>, k: nat, l: Pos)
    requires WorldOk(world) && k < |world| && InBounds(l)
    ensures CullFaces(world, k, l).back <==> Hidden(world, k, l, Back)
  {
    var q := l.Plus(Normal(Back));
    assert q == Pos(l.x, l.y, l.z - 1);
    if l.z == 0 {
      assert !InBounds(q);
      assert Wrap(q) == Pos(l.x, l.y, ChunkSize - 1);
    } else {
      assert InBounds(q);
    }
  }

  lemma CullRight(world: seq<Chunk>, k: nat, l: Pos)
    requires WorldOk(world) && k < |world| && InBounds(l)
    ensures CullFaces(world, k, l).right <==> Hidden(world, k, l, Right)
  {
    var q := l.Plus(Normal(Right));
    assert q == Pos(l.x + 1, l.y, l.z);
    if l.x == ChunkSize - 1 {
      assert !InBounds(q);
      assert Wrap(q) == Pos(0, l.y, l.z);
    } else {
      assert InBounds(q);
    }
  }

  lemma CullLeft(world: seq<Chunk>, k: nat, l: Pos)
    requires WorldOk(world) && k < |world| && InBounds(l)
    ensures CullFaces(world, k, l).left <==> Hidden(world, k, l, Left)
  {
    var q := l.Plus(Normal(Left));
    assert q == Pos(l.x - 1, l.y, l.z);
    if l.x == 0 {
      assert !InBounds(q);
      assert Wrap(q) == Pos(ChunkSize - 1, l.y, l.z);
    } else {
      assert InBounds(q);
    }
  }

  lemma CullTop(world: seq<Chunk>, k: nat, l: Pos)
    requires WorldOk(world) && k < |world| && InBounds(l)
    ensures CullFaces(world, k, l).top <==> Hidden(world, k, l, Top)
  {
    var q := l.Plus(Normal(Top));
    assert q == Pos(l.x, l.y + 1, l.z);
    if l.y == ChunkHeight - 1 {
      assert !InBounds(q);
    } else {
      assert InBounds(q);
    }
  }

  lemma CullBottom(world: seq<Chunk>, k: nat, l: Pos)
    requires WorldOk(world) && k < |world| && InBounds(l)
    ensures CullFaces(world, k, l).bottom <==> Hidden(world, k, l, Bottom)
  {
    var q := l.Plus(Normal(Bottom));
    assert q == Pos(l.x, l.y - 1, l.z);
    if l.y == 0 {
      assert !InBounds(q);
    } else {
      assert InBounds(q);
    }
  }

  /**
   * Chunk::GetOcclusionValue for the world position `q` a probe lands on:
   * 0.75 if an active block is there, otherwise 1.0; a position outside
   * the chunk is handed to the neighbour the AddBlock chain would pick.
   */
  function GetOcclusionValue(world: seq<Chunk>, k: nat, q: Pos): (r: real)
    requires WorldOk(world) && k < |world|
    ensures r == 0.75 || r == 1.0
    decreases Reach(world[k], q)
  {
    var e := CheckBlockExists(world[k], q);
    if e.found then 0.75
    else if e.outOfBounds then
      match Forward(world[k], q)
      case Some(j) =>
        ForwardCloser(world, k, q);
        GetOcclusionValue(world, j, q)
      case None => 1.0
    else 1.0
  }

  /**
   * A probe darkens its vertex exactly when the chunk the forwarding chain
   * ends in holds an active block at the probed position.
   */
  lemma {:induction false} OcclusionAtResolve(world: seq<Chunk>, k: nat, q: Pos)
    requires WorldOk(world) && k < |world|
    ensures var r := Resolve(world, k, q);
      var l := GetBlockIndex(world[r], q);
      GetOcclusionValue(world, k, q) == 0.75 <==> InBounds(l) && world[r].blocks[Index(l)].IsActive()
    decreases Reach(world[k], q)
  {
    match Forward(world[k], q)
    case None =>
    case Some(j) =>
      ForwardCloser(world, k, q);
      OcclusionAtResolve(world, j, q);
  }

  /**
   * Corner `i` (0..3, counter-clockwise from bottom left) of face `f`, as
   * a direction from the block centre in half-block units (the p1..p8
   * corners of CreateBlockData).
   */
  function Corner(f: Face, i: nat): Pos
    requires i < 4
  {
    var p1, p2, p3, p4 := Pos(-1, -1, 1), Pos(1, -1, 1), Pos(1, 1, 1), Pos(-1, 1, 1);
    var p5, p6, p7, p8 := Pos(1, -1, -1), Pos(-1, -1, -1), Pos(-1, 1, -1), Pos(1, 1, -1);
    match f
    case Front => if i == 0 then p1 else if i == 1 then p2 else if i == 2 then p3 else p4
    case Back => if i == 0 then p5 else if i == 1 then p6 else if i == 2 then p7 else p8
    case Right => if i == 0 then p2 else if i == 1 then p5 else if i == 2 then p8 else p3
    case Left => if i == 0 then p6 else if i == 1 then p1 else if i == 2 then p4 else p7
    case Top => if i == 0 then p4 else if i == 1 then p3 else if i == 2 then p8 else p7
    case Bottom => if i == 0 then p6 else if i == 1 then p5 else if i == 2 then p2 else p1
  }

  /** The texture coordinate of corner `i`: (0,0), (1,0), (1,1), (0,1). */
  function U(i: nat): nat { if i == 1 || i == 2 then 1 else 0 }
  function V(i: nat): nat { if i >= 2 then 1 else 0 }

  /** The three blocks probed for the occlusion of corner `i` of face `f`: two edges and the diagonal. */
  datatype Probe = Probe(edge1: Pos, edge2: Pos, diagonal: Pos)

  function Probes(f: Face, i: nat): Probe
    requires i < 4
  {
    match f
    case Front =>
      if i == 0 then Probe(Pos(-1, 0, 1), Pos(0, -1, 1), Pos(-1, -1, 1))
      else if i == 1 then Probe(Pos(1, 0, 1), Pos(0, -1, 1), Pos(1, -1, 1))
      else if i == 2 then Probe(Pos(1, 0, 1), Pos(0, 1, 1), Pos(1, 1, 1))
      else Probe(Pos(-1, 0, 1), Pos(0, 1, 1), Pos(-1, 1, 1))
    case Back =>
      if i == 0 then Probe(Pos(1, 0, -1), Pos(0, -1, -1), Pos(1, -1, -1))
      else if i == 1 then Probe(Pos(-1, 0, -1), Pos(0, -1, -1), Pos(-1, -1, -1))
      else if i == 2 then Probe(Pos(-1, 0, -1), Pos(0, 1, -1), Pos(-1, 1, -1))
      else Probe(Pos(1, 0, -1), Pos(0, 1, -1), Pos(1, 1, -1))
    case Right =>
      if i == 0 then Probe(Pos(1, 0, 1), Pos(1, -1, 0), Pos(1, -1, 1))
      else if i == 1 then Probe(Pos(1, 0, -1), Pos(1, -1, 0), Pos(1, -1, -1))
      else if i == 2 then Probe(Pos(1, 0, -1), Pos(1, 1, 0), Pos(1, 1, -1))
      else Probe(Pos(1, 0, 1), Pos(1, 1, 0), Pos(1, 1, 1))
    case Left =>
      if i == 0 then Probe(Pos(-1, 0, -1), Pos(-1, -1, 0), Pos(-1, -1, -1))
      else if i == 1 then Probe(Pos(-1, 0, 1), Pos(-1, -1, 0), Pos(-1, -1, 1))
      else if i == 2 then Probe(Pos(-1, 0, 1), Pos(-1, 1, 0), Pos(-1, 1, 1))
      else Probe(Pos(-1, 0, -1), Pos(-1, 1, 0), Pos(-1, 1, -1))
    case Top =>
      if i == 0 then Probe(Pos(0, 1, 1), Pos(-1, 1, 0), Pos(-1, 1, 1))
      else if i == 1 then Probe(Pos(0, 1, 1), Pos(1, 1, 0), Pos(1, 1, 1))
      else if i == 2 then Probe(Pos(0, 1, -1), Pos(1, 1, 0), Pos(1, 1, -1))
      else Probe(Pos(0, 1, -1), Pos(-1, 1, 0), Pos(-1, 1, -1))
    case Bottom =>
      if i == 0 then Probe(Pos(0, -1, -1), Pos(-1, -1, 0), Pos(-1, -1, -1))
      else if i == 1 then Probe(Pos(0, -1, -1), Pos(1, -1, 0), Pos(1, -1, -1))
      else if i == 2 then Probe(Pos(0, -1, 1), Pos(1, -1, 0), Pos(1, -1, 1))
      else Probe(Pos(0, -1, 1), Pos(-1, -1, 0), Pos(-1, -1, 1))
  }

  /**
   * The geometry of the tables: every face's corners lie on the face's
   * plane and go round it one edge at a time; every probe lies in the
   * layer of blocks in front of the face; the diagonal probe points at
   * the vertex's corner and the two edge probes are its neighbours along
   * the face (edge1 + edge2 == diagonal + normal).
   */
  lemma FaceGeometry(f: Face, i: nat)
    requires i < 4
    ensures Along(Corner(f, i), f) == 1
    ensures var a, b := Corner(f, i), Corner(f, (i + 1) % 4);
      (a.x != b.x && a.y == b.y && a.z == b.z) || (a.x == b.x && a.y != b.y && a.z == b.z) ||
      (a.x == b.x && a.y == b.y && a.z != b.z)
    ensures var p := Probes(f, i);
      Along(p.edge1, f) == 1 && Along(p.edge2, f) == 1 && p.diagonal == Corner(f, i) &&
      p.edge1.Plus(p.edge2) == p.diagonal.Plus(Normal(f))
  {
    match f
    case Front => if i == 0 {} else if i == 1 {} else if i == 2 {} else {}
    case Back => if i == 0 {} else if i == 1 {} else if i == 2 {} else {}
    case Right => if i == 0 {} else if i == 1 {} else if i == 2 {} else {}
    case Left => if i == 0 {} else if i == 1 {} else if i == 2 {} else {}
    case Top => if i == 0 {} else if i == 1 {} else if i == 2 {} else {}
    case Bottom => if i == 0 {} else if i == 1 {} else if i == 2 {} else {}
  }

  /** The product of GetOcclusionValue over the probes at offsets `ds` from world position `c`. */
  function Occlusion(world: seq<Chunk>, k: nat, c: Pos, ds: seq<Pos>): real
    requires WorldOk(world) && k < |world|
  {
    if |ds| == 0 then 1.0 else GetOcclusionValue(world, k, c.Plus(ds[0])) * Occlusion(world, k, c, ds[1..])
  }

  /**
   * The occlusion factor of corner `i` of face `f` of the block centred at
   * world position `c`: the product of its two edge probes and its
   * diagonal probe.
   */
  function VertexOcclusion(world: seq<Chunk>, k: nat, c: Pos, f: Face, i: nat): real
    requires WorldOk(world) && k < |world| && i < 4
  {
    var p := Probes(f, i);
    Occlusion(world, k, c, [p.edge1, p.edge2, p.diagonal])
  }

  /**
   * A vertex is darkened by a quarter for each of its three probes that
   * finds a block: its factor is 1, 0.75, 0.5625 or 0.421875, and it is 1
   * exactly when no probe finds one.
   */
  lemma OcclusionLevels(world: seq<Chunk>, k: nat, c: Pos, f: Face, i: nat)
    requires WorldOk(world) && k < |world| && i < 4
    ensures var r := VertexOcclusion(world, k, c, f, i);
      r == 1.0 || r == 0.75 || r == 0.5625 || r == 0.421875
    ensures var p := Probes(f, i);
      VertexOcclusion(world, k, c, f, i) == 1.0 <==>
        GetOcclusionValue(world, k, c.Plus(p.edge1)) == 1.0 && GetOcclusionValue(world, k, c.Plus(p.edge2)) == 1.0 &&
        GetOcclusionValue(world, k, c.Plus(p.diagonal)) == 1.0
  {
    var p := Probes(f, i);
    var ds := [p.edge1, p.edge2, p.diagonal];
    var a := GetOcclusionValue(world, k, c.Plus(p.edge1));
    var b := GetOcclusionValue(world, k, c.Plus(p.edge2));
    var d := GetOcclusionValue(world, k, c.Plus(p.diagonal));
    ThreeProbes(world, k, c, ds);
    assert VertexOcclusion(world, k, c, f, i) == a * (b * d);
  }

  /** A block centre in half-block units, the unit of vertex positions. */
  function Doubled(c: Pos): Pos
  {
    Pos(2 * c.x, 2 * c.y, 2 * c.z)
  }

  /**
   * The occlusion factors of the first `n` corners of face `f` of the
   * block centred at `c` (all four for n == 4).
   */
  function FaceShade(world: seq<Chunk>, k: nat, c: Pos, f: Face, n: nat): (occ: seq<real>)
    requires WorldOk(world) && k < |world| && n <= 4
    ensures |occ| == n
  {
    if n == 0 then [] else FaceShade(world, k, c, f, n - 1) + [VertexOcclusion(world, k, c, f, n - 1)]
  }

  lemma {:induction false} FaceShadeAt(world: seq<Chunk>, k: nat, c: Pos, f: Face, n: nat, i: nat)
    requires WorldOk(world) && k < |world| && i < n <= 4
    ensures FaceShade(world, k, c, f, n)[i] == VertexOcclusion(world, k, c, f, i)
  {
    if i < n - 1 {
      FaceShadeAt(world, k, c, f, n - 1, i);
    }
  }

  /** Four occlusion factors for each of the six faces, by texture slot. */
  predicate Shading(sh: seq<seq<real>>)
  {
    |sh| == 6 && forall j :: 0 <= j < 6 ==> |sh[j]| == 4
  }

  /** The shading of the first `n` faces of the block centred at `c`, by texture slot. */
  function BlockShade(world: seq<Chunk>, k: nat, c: Pos, n: nat): (sh: seq<seq<real>>)
    requires WorldOk(world) && k < |world| && n <= 6
    ensures |sh| == n && forall j :: 0 <= j < n ==> |sh[j]| == 4
  {
    if n == 0 then [] else BlockShade(world, k, c, n - 1) + [FaceShade(world, k, c, Faces[n - 1], 4)]
  }

  lemma {:induction false} BlockShadeAt(world: seq<Chunk>, k: nat, c: Pos, n: nat, j: nat)
    requires WorldOk(world) && k < |world| && j < n <= 6
    ensures BlockShade(world, k, c, n)[j] == FaceShade(world, k, c, Faces[j], 4)
  {
    if j < n - 1 {
      BlockShadeAt(world, k, c, n - 1, j);
    }
  }

  /** The vertex at corner `i` of face `f` of the block centred at `c`. */
  function CornerVertex(c: Pos, f: Face, layer: nat, occ: real, i: nat): Vertex
    requires i < 4
  {
    Vertex(Doubled(c).Plus(Corner(f, i)), Normal(f), U(i), V(i), occ, layer)
  }

  /** The four vertices of face `f`, counter-clockwise from the bottom left corner. */
  function QuadVertices(c: Pos, f: Face, layer: nat, occ: seq<real>): (vs: seq<Vertex>)
    requires |occ| == 4
    ensures |vs| == 4
  {
    [CornerVertex(c, f, layer, occ[0], 0), CornerVertex(c, f, layer, occ[1], 1),
     CornerVertex(c, f, layer, occ[2], 2), CornerVertex(c, f, layer, occ[3], 3)]
  }

  /**
   * The two triangles of a quad whose vertices end at position `s`: split
   * along corners 0-2 when their occlusion sum is larger, otherwise along
   * corners 3-1.
   */
  function FaceIndices(s: nat, occ: seq<real>): seq<nat>
    requires s >= 4 && |occ| == 4
  {
    if occ[0] + occ[2] > occ[1] + occ[3] then [s - 4, s - 3, s - 2, s - 4, s - 2, s - 1]
    else [s - 1, s - 4, s - 3, s - 1, s - 3, s - 2]
  }

  /** Three corners of a quad taken in its own cyclic order (once round). */
  predicate Winds(a: int, b: int, c: int)
  {
    (b - a) % 4 + (c - b) % 4 + (a - c) % 4 == 4
  }

  /**
   * The quad split: the two triangles use exactly the four new vertices,
   * each has three distinct corners and keeps the quad's winding, and
   * they share the diagonal whose corners have the larger occlusion sum
   * (on a tie, the 3-1 diagonal).
   */
  lemma QuadSplit(s: nat, occ: seq<real>)
    requires s >= 4 && |occ| == 4
    ensures var t := FaceIndices(s, occ);
      |t| == 6 && (forall j :: 0 <= j < 6 ==> s - 4 <= t[j] < s) &&
      {t[0], t[1], t[2], t[3], t[4], t[5]} == {s - 4, s - 3, s - 2, s - 1} &&
      t[0] != t[1] && t[1] != t[2] && t[0] != t[2] && t[3] != t[4] && t[4] != t[5] && t[3] != t[5] &&
      Winds(t[0], t[1], t[2]) && Winds(t[3], t[4], t[5]) &&
      t[0] == t[3] && t[2] == t[4] &&
      (occ[0] + occ[2] > occ[1] + occ[3] <==> {t[0], t[2]} == {s - 4, s - 2}) &&
      (occ[0] + occ[2] <= occ[1] + occ[3] <==> {t[0], t[2]} == {s - 1, s - 3})
  {
  }

  /**
   * A triangle mesh whose vertices come in quads and whose indices come
   * six per quad, every one naming a vertex that exists.
   */
  ghost predicate MeshOk(m: Mesh)
  {
    |m.vertices| % 4 == 0 && 2 * |m.indices| == 3 * |m.vertices| &&
    forall j :: 0 <= j < |m.indices| ==> m.indices[j] < |m.vertices|
  }

  /** One visible face appended to a mesh under construction: its four vertices, then its two triangles. */
  function AddQuad(m: Mesh, c: Pos, f: Face, layer: nat, occ: seq<real>): Mesh
    requires |occ| == 4
  {
    var vs := m.vertices + QuadVertices(c, f, layer, occ);
    Mesh(vs, m.indices + FaceIndices(|vs|, occ))
  }

  /**
   * Appending a face adds four vertices and six indices after the mesh
   * before it, and keeps a mesh well formed: its six indices name its own
   * four new vertices.
   */
  lemma AddQuadOk(m: Mesh, c: Pos, f: Face, layer: nat, occ: seq<real>)
    requires |occ| == 4
    ensures var r := AddQuad(m, c, f, layer, occ);
      |r.vertices| == |m.vertices| + 4 && |r.indices| == |m.indices| + 6 &&
      r.vertices[..|m.vertices|] == m.vertices && r.indices[..|m.indices|] == m.indices
    ensures MeshOk(m) ==> MeshOk(AddQuad(m, c, f, layer, occ))
  {
    var s := |m.vertices| + 4;
    var t := FaceIndices(s, occ);
    var r := AddQuad(m, c, f, layer, occ);
    assert r.indices == m.indices + t;
    if MeshOk(m) {
      forall j | 0 <= j < |r.indices|
        ensures r.indices[j] < |r.vertices|
      {
        if j >= |m.indices| {
          assert r.indices[j] == t[j - |m.indices|];
        }
      }
    }
  }

  /** How many of the first `n` faces a culling leaves to be drawn. */
  function Drawn(c: Culling, n: nat): (d: nat)
    requires n <= 6
    ensures d <= n
  {
    if n == 0 then 0 else Drawn(c, n - 1) + (if Culled(c, Faces[n - 1]) then 0 else 1)
  }

  /**
   * CreateBlockData for the first `n` faces, in the order front, back,
   * right, left, top, bottom: each face the culling leaves visible adds a
   * quad with that face's texture layer and shading.
   */
  function BlockFaces(c: Pos, cull: Culling, tex: seq<nat>, sh: seq<seq<real>>, m: Mesh, n: nat): Mesh
    requires |tex| >= 6 && Shading(sh) && n <= 6
  {
    if n == 0 then m
    else
      var r := BlockFaces(c, cull, tex, sh, m, n - 1);
      if Culled(cull, Faces[n - 1]) then r else AddQuad(r, c, Faces[n - 1], tex[n - 1], sh[n - 1])
  }

  /**
   * A block adds four vertices and six indices per face its culling leaves
   * visible, keeps the mesh before it as a prefix, and keeps it well formed.
   */
  lemma {:induction false} BlockFacesShape(c: Pos, cull: Culling, tex: seq<nat>, sh: seq<seq<real>>, m: Mesh, n: nat)
    requires |tex| >= 6 && Shading(sh) && n <= 6
    ensures var r := BlockFaces(c, cull, tex, sh, m, n);
      |r.vertices| == |m.vertices| + 4 * Drawn(cull, n) && |r.indices| == |m.indices| + 6 * Drawn(cull, n) &&
      r.vertices[..|m.vertices|] == m.vertices && r.indices[..|m.indices|] == m.indices &&
      (MeshOk(m) ==> MeshOk(r))
  {
    if n > 0 {
      var r := BlockFaces(c, cull, tex, sh, m, n - 1);
      BlockFacesShape(c, cull, tex, sh, m, n - 1);
      if !Culled(cull, Faces[n - 1]) {
        AddQuadOk(r, c, Faces[n - 1], tex[n - 1], sh[n - 1]);
        var r' := AddQuad(r, c, Faces[n - 1], tex[n - 1], sh[n - 1]);
        PrefixOfPrefix(r'.vertices, |r.vertices|, |m.vertices|);
        PrefixOfPrefix(r'.indices, |r.indices|, |m.indices|);
      }
    }
  }

  lemma PrefixOfPrefix<T>(s: seq<T>, i: nat, j: nat)
    requires j <= i <= |s|
    ensures s[..i][..j] == s[..j]
  {
  }

  /** Every active block of the chunk has a texture layer for each of its six faces. */
  ghost predicate Textured(ch: Chunk)
  {
    forall i :: 0 <= i < |ch.blocks| ==> ch.blocks[i].IsActive() ==> |ch.blocks[i].GetData().textureIds| >= 6
  }

  /** The culling CreateMesh uses: CullFaces for blocks that hide faces, nothing culled for the others. */
  function BlockCulling(world: seq<Chunk>, k: nat, l: Pos): Culling
    requires WorldOk(world) && k < |world| && InBounds(l)
  {
    if GetBlock(world[k], l).GetData().shouldCullFace then CullFaces(world, k, l) else NoCulling
  }

  /**
   * The mesh CreateMesh and UpdateMesh build from the first `n` blocks of
   * chunk `k` in storage order (x, then y, then z): every active block
   * adds the faces its culling leaves visible, centred on its world
   * position.
   */
  function MeshUpTo(world: seq<Chunk>, k: nat, n: nat): (m: Mesh)
    requires WorldOk(world) && k < |world| && Textured(world[k]) && n <= Volume
    ensures MeshOk(m)
  {
    if n == 0 then Mesh([], [])
    else
      var m := MeshUpTo(world, k, n - 1);
      var l := LocalOf(n - 1);
      var b := world[k].blocks[n - 1];
      if b.IsActive() then
        var c := WorldPos(world[k], l);
        BlockFacesShape(c, BlockCulling(world, k, l), b.GetData().textureIds, BlockShade(world, k, c, 6), m, 6);
        BlockFaces(c, BlockCulling(world, k, l), b.GetData().textureIds, BlockShade(world, k, c, 6), m, 6)
      else m
  }

  /** A block whose every face is culled adds nothing to the mesh. */
  lemma {:induction false} NothingDrawn(c: Pos, cull: Culling, tex: seq<nat>, sh: seq<seq<real>>, m: Mesh, n: nat)
    requires |tex| >= 6 && Shading(sh) && n <= 6 && Drawn(cull, n) == 0
    ensures BlockFaces(c, cull, tex, sh, m, n) == m
  {
    if n > 0 {
      NothingDrawn(c, cull, tex, sh, m, n - 1);
    }
  }

  /**
   * A block that hides faces and is enclosed on all six sides (inside the
   * chunk by face-hiding blocks, across a linked border by any active
   * block) contributes nothing to the mesh.
   */
  lemma EnclosedBlockDrawsNothing(world: seq<Chunk>, k: nat, l: Pos)
    requires WorldOk(world) && k < |world| && Textured(world[k]) && InBounds(l)
    requires GetBlock(world[k], l).GetData().shouldCullFace
    requires forall f: Face :: Hidden(world, k, l, f)
    ensures MeshUpTo(world, k, Index(l) + 1) == MeshUpTo(world, k, Index(l))
  {
    IndexBijection(l);
    var b := world[k].blocks[Index(l)];
    if b.IsActive() {
      var cull := CullFaces(world, k, l);
      forall f: Face
        ensures Culled(cull, f)
      {
        CullExactlyHidden(world, k, l, f);
      }
      assert Drawn(cull, 6) == 0 by {
        assert Culled(cull, Front) && Culled(cull, Back) && Culled(cull, Right);
        assert Culled(cull, Left) && Culled(cull, Top) && Culled(cull, Bottom);
      }
      var c := WorldPos(world[k], l);
      NothingDrawn(c, cull, b.GetData().textureIds, BlockShade(world, k, c, 6), MeshUpTo(world, k, Index(l)), 6);
    }
  }

  /**
   * Every vertex of a face sits on that face of its block (one half-block
   * from the doubled centre along the normal, at the face's corner `i`)
   * and carries the face's normal and texture layer.
   */
  lemma FaceOnItsPlane(c: Pos, f: Face, layer: nat, occ: seq<real>)
    requires |occ| == 4
    ensures var vs := QuadVertices(c, f, layer, occ);
      forall i :: 0 <= i < 4 ==>
        vs[i].normal == Normal(f) && vs[i].textureIndex == layer && vs[i].occlusion == occ[i] &&
        vs[i].position.Minus(Doubled(c)) == Corner(f, i) && Along(Corner(f, i), f) == 1
  {
    forall i | 0 <= i < 4
      ensures Along(Corner(f, i), f) == 1
    {
      FaceGeometry(f, i);
    }
  }

  /**
   * One `if (!faceCulling.<face>)` block of CreateBlockData: the four
   * occlusion factors, four vertices pushed corner by corner, then the six
   * indices of the split the occlusion sums choose.
   */
  method EmitFace(world: seq<Chunk>, k: nat, c: Pos, f: Face, tex: seq<nat>, vertices: seq<Vertex>, indices: seq<nat>)
    returns (vs: seq<Vertex>, ids: seq<nat>)
    requires WorldOk(world) && k < |world| && |tex| >= 6
    ensures Mesh(vs, ids) == AddQuad(Mesh(vertices, indices), c, f, tex[Slot(f)], FaceShade(world, k, c, f, 4))
  {
    var o0 := Shade(world, k, c, f, 0);
    var o1 := Shade(world, k, c, f, 1);
    var o2 := Shade(world, k, c, f, 2);
    var o3 := Shade(world, k, c, f, 3);
    var occ := [o0, o1, o2, o3];
    var n := Normal(f);
    var base := Doubled(c);
    var layer := tex[Slot(f)];
    var v0 := Vertex(base.Plus(Corner(f, 0)), n, 0, 0, occ[0], layer);
    var v1 := Vertex(base.Plus(Corner(f, 1)), n, 1, 0, occ[1], layer);
    var v2 := Vertex(base.Plus(Corner(f, 2)), n, 1, 1, occ[2], layer);
    var v3 := Vertex(base.Plus(Corner(f, 3)), n, 0, 1, occ[3], layer);
    vs := vertices;
    vs := vs + [v0];
    vs := vs + [v1];
    vs := vs + [v2];
    vs := vs + [v3];
    PushFour(vertices, v0, v1, v2, v3);
    forall i | 0 <= i < 4
      ensures occ[i] == FaceShade(world, k, c, f, 4)[i]
    {
      FaceShadeAt(world, k, c, f, 4, i);
    }
    assert [v0, v1, v2, v3] == QuadVertices(c, f, layer, occ);
    ids := indices + FaceIndices(|vs|, occ);
  }

  /** The three GetOcclusionValue calls for one vertex of CreateBlockData, multiplied. */
  method Shade(world: seq<Chunk>, k: nat, c: Pos, f: Face, i: nat) returns (occ: real)
    requires WorldOk(world) && k < |world| && i < 4
    ensures occ == VertexOcclusion(world, k, c, f, i)
  {
    var p := Probes(f, i);
    occ := GetOcclusionValue(world, k, c.Plus(p.edge1)) * GetOcclusionValue(world, k, c.Plus(p.edge2)) *
      GetOcclusionValue(world, k, c.Plus(p.diagonal));
    ThreeProbes(world, k, c, [p.edge1, p.edge2, p.diagonal]);
  }

  lemma ThreeProbes(world: seq<Chunk>, k: nat, c: Pos, ds: seq<Pos>)
    requires WorldOk(world) && k < |world| && |ds| == 3
    ensures Occlusion(world, k, c, ds) ==
      GetOcclusionValue(world, k, c.Plus(ds[0])) * GetOcclusionValue(world, k, c.Plus(ds[1])) *
      GetOcclusionValue(world, k, c.Plus(ds[2]))
  {
    assert Occlusion(world, k, c, ds[1..][1..][1..]) == 1.0;
    assert Occlusion(world, k, c, ds[1..][1..]) == GetOcclusionValue(world, k, c.Plus(ds[2]));
    assert Occlusion(world, k, c, ds[1..]) ==
      GetOcclusionValue(world, k, c.Plus(ds[1])) * GetOcclusionValue(world, k, c.Plus(ds[2]));
  }

  lemma PushFour<T>(s: seq<T>, a: T, b: T, c: T, d: T)
    ensures s + [a] + [b] + [c] + [d] == s + [a, b, c, d]
  {
  }

  /** One more face of CreateBlockData: emitted unless the culling hides it. */
  lemma BlockFacesStep(c: Pos, cull: Culling, tex: seq<nat>, sh: seq<seq<real>>, m: Mesh, n: nat)
    requires |tex| >= 6 && Shading(sh) && 0 < n <= 6
    ensures var before := BlockFaces(c, cull, tex, sh, m, n - 1);
      BlockFaces(c, cull, tex, sh, m, n) ==
        if Culled(cull, Faces[n - 1]) then before else AddQuad(before, c, Faces[n - 1], tex[n - 1], sh[n - 1])
  {
  }

  /**
   * The `if (!faceCulling.<face>)` block of CreateBlockData for the n-th
   * face (front, back, right, left, top, bottom): emitted unless culled.
   */
  method FaceUnlessCulled(world: seq<Chunk>, k: nat, c: Pos, cull: Culling, tex: seq<nat>, n: nat,
                          vertices: seq<Vertex>, indices: seq<nat>, ghost m: Mesh)
    returns (vs: seq<Vertex>, ids: seq<nat>)
    requires WorldOk(world) && k < |world| && |tex| >= 6 && 0 < n <= 6
    requires Mesh(vertices, indices) == BlockFaces(c, cull, tex, BlockShade(world, k, c, 6), m, n - 1)
    ensures Mesh(vs, ids) == BlockFaces(c, cull, tex, BlockShade(world, k, c, 6), m, n)
  {
    ghost var sh := BlockShade(world, k, c, 6);
    var f := Faces[n - 1];
    assert Slot(f) == n - 1;
    BlockShadeAt(world, k, c, 6, n - 1);
    BlockFacesStep(c, cull, tex, sh, m, n);
    vs, ids := vertices, indices;
    if !Culled(cull, f) {
      vs, ids := EmitFace(world, k, c, f, tex, vs, ids);
    }
  }

  /** Chunk::CreateBlockData: the six faces in order, each emitted unless culled. */
  method CreateBlockData(world: seq<Chunk>, k: nat, c: Pos, vertices: seq<Vertex>, indices: seq<nat>, cull: Culling, tex: seq<nat>)
    returns (vs: seq<Vertex>, ids: seq<nat>)
    requires WorldOk(world) && k < |world| && |tex| >= 6
    ensures Mesh(vs, ids) == BlockFaces(c, cull, tex, BlockShade(world, k, c, 6), Mesh(vertices, indices), 6)
  {
    ghost var m := Mesh(vertices, indices);
    vs, ids := FaceUnlessCulled(world, k, c, cull, tex, 1, vertices, indices, m);
    vs, ids := FaceUnlessCulled(world, k, c, cull, tex, 2, vs, ids, m);
    vs, ids := FaceUnlessCulled(world, k, c, cull, tex, 3, vs, ids, m);
    vs, ids := FaceUnlessCulled(world, k, c, cull, tex, 4, vs, ids, m);
    vs, ids := FaceUnlessCulled(world, k, c, cull, tex, 5, vs, ids, m);
    vs, ids := FaceUnlessCulled(world, k, c, cull, tex, 6, vs, ids, m);
  }

  /** One iteration of the z loop: the block at l adds its faces when active. */
  method MeshBlock(world: array<Chunk>, k: nat, l: Pos, m: Mesh) returns (r: Mesh)
    requires WorldOk(world[..]) && k < world.Length && Textured(world[k]) && InBounds(l)
    requires m == MeshUpTo(world[..], k, Index(l))
    ensures r == MeshUpTo(world[..], k, Index(l) + 1)
  {
    IndexBijection(l);
    r := m;
    var block := GetBlock(world[k], l);
    if block.IsActive() {
      var culling := NoCulling;
      if block.GetData().shouldCullFace {
        culling := CullFaces(world[..], k, l);
      }
      var vs, ids := CreateBlockData(world[..], k, WorldPos(world[k], l), r.vertices, r.indices, culling, block.GetData().textureIds);
      r := Mesh(vs, ids);
    }
  }

  /** The innermost (z) loop of the mesh build for one row of the chunk. */
  method BuildRow(world: array<Chunk>, k: nat, x: int, y: int, m: Mesh) returns (r: Mesh)
    requires WorldOk(world[..]) && k < world.Length && Textured(world[k])
    requires 0 <= x < ChunkSize && 0 <= y < ChunkHeight
    requires m == MeshUpTo(world[..], k, Index(Pos(x, y, 0)))
    ensures r == MeshUpTo(world[..], k, Index(Pos(x, y, 0)) + ChunkSize)
  {
    r := m;
    var z := 0;
    while z < ChunkSize
      invariant 0 <= z <= ChunkSize
      invariant r == MeshUpTo(world[..], k, Index(Pos(x, y, 0)) + z)
    {
      r := MeshBlock(world, k, Pos(x, y, z), r);
      z := z + 1;
    }
  }

  /** The x, y, z loops CreateMesh and UpdateMesh share: the mesh of the whole chunk. */
  method BuildMesh(world: array<Chunk>, k: nat) returns (m: Mesh)
    requires WorldOk(world[..]) && k < world.Length && Textured(world[k])
    ensures m == MeshUpTo(world[..], k, Volume)
    ensures MeshOk(m)
  {
    m := Mesh([], []);
    var x := 0;
    while x < ChunkSize
      invariant 0 <= x <= ChunkSize
      invariant m == MeshUpTo(world[..], k, x * (ChunkSize * ChunkHeight))
    {
      var y := 0;
      while y < ChunkHeight
        invariant 0 <= y <= ChunkHeight
        invariant m == MeshUpTo(world[..], k, x * (ChunkSize * ChunkHeight) + y * ChunkSize)
      {
        m := BuildRow(world, k, x, y, m);
        y := y + 1;
      }
      x := x + 1;
    }
  }

  /** Mesh::Rebuild: the new lists replace the old ones unless either is empty. */
  function Rebuild(current: Mesh, built: Mesh): (r: Mesh)
    ensures r == built || r == current
    ensures r == built <== |built.vertices| > 0 && |built.indices| > 0
    ensures r == current <== |built.vertices| == 0 || |built.indices| == 0
  {
    if |built.vertices| == 0 || |built.indices| == 0 then current else built
  }

  /**
   * Chunk::CreateMesh: throws if the chunk already has a mesh; otherwise
   * the chunk gets the mesh of its blocks and nothing else changes.
   */
  method CreateMesh(world: array<Chunk>, k: nat) returns (r: Outcome<ChunkError>)
    requires WorldOk(world[..]) && k < world.Length && Textured(world[k])
    modifies world
    ensures old(world[k].mesh).Some? ==> r == Fail(MeshExists) && world[..] == old(world[..])
    ensures old(world[k].mesh).None? ==>
      r == Pass && world[..] == old(world[..])[k := old(world[k]).(mesh := Some(MeshUpTo(old(world[..]), k, Volume)))]
  {
    if world[k].mesh.Some? {
      return Fail(MeshExists);
    }
    var m := BuildMesh(world, k);
    world[k] := world[k].(mesh := Some(m));
    r := Pass;
  }

  /** Chunk::UpdateMesh: the chunk's mesh is rebuilt from its current blocks. */
  method UpdateMesh(world: array<Chunk>, k: nat)
    requires WorldOk(world[..]) && k < world.Length && Textured(world[k]) && world[k].mesh.Some?
    modifies world
    ensures world[..] == old(world[..])[k := old(world[k]).(mesh := Some(Rebuild(old(world[k].mesh.value), MeshUpTo(old(world[..]), k, Volume))))]
  {
    var m := BuildMesh(world, k);
    world[k] := world[k].(mesh := Some(Rebuild(world[k].mesh.value, m)));
  }

  /** Chunk::Update: a dirty chunk rebuilds its mesh and becomes clean; a clean one is left alone. */
  method Update(world: array<Chunk>, k: nat)
    requires WorldOk(world[..]) && k < world.Length && Textured(world[k])
    requires world[k].dirty ==> world[k].mesh.Some?
    modifies world
    ensures !world[k].dirty
    ensures old(world[k].dirty) ==> world[..] == old(world[..])[k := old(world[k]).(
      mesh := Some(Rebuild(old(world[k].mesh.value), MeshUpTo(old(world[..]), k, Volume))), dirty := false)]
    ensures !old(world[k].dirty) ==> world[..] == old(world[..])
  {
    if world[k].dirty {
      UpdateMesh(world, k);
      world[k] := world[k].(dirty := false);
    }
  }
}
