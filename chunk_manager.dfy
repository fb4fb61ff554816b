/**
 * World assembly (src/core/world/ChunkManager.cpp): the noise maps over the
 * whole 256 x 256 x 48 block map, their blend, the per-chunk slicing that
 * feeds InitTerrain, the neighbour topology of the 16 x 16 chunk grid, and
 * the sequential generation pass. FastNoiseLite is a given noise field.
 */
module ChunkManager {
  import opened Wrappers
  import opened Definitions
  import opened Blocks
  import opened Chunks
  import opened Arena
  import opened Terrain
  import opened Trees
  import opened Meshing
  import opened Stock

  /** Blocks along x and z of the whole map: CHUNK_SIZE * MAP_SIZE. */
  const MapBlocks: int := 256
  /** Entries of a map-wide noise map: one per block of the map. */
  const GridVolume: int := 3145728
  /** Chunks of the map. */
  const ChunkCount: int := 256
  /** CHUNK_NOISE_SCALE and CHUNK_NOISE_SCALE_3D. */
  const NoiseScale: real := 1.5
  const NoiseScale3D: real := 1.0
  /**
   * currentSeed1 and currentSeed2: `flat1` and `solid1` below stand for the
   * fields FastNoiseLite builds with Seed1, `flat2` and `solid2` for Seed2.
   */
  const Seed1: int := 1337
  const Seed2: int := 9658

  /** A seeded Perlin field sampled on a column (x, z) of the map. */
  type Field2 = (int, int) -> real
  /** A seeded Perlin field sampled at a block (x, y, z) of the map. */
  type Field3 = (int, int, int) -> real

  // ---------------------------------------------------------------------
  // Map-wide layout: x-major, then z, then y.
  // ---------------------------------------------------------------------

  function GridIndex(x: int, z: int, y: int): int
  {
    x * 12288 + z * 48 + y
  }

  function GridX(i: int): int { i / 12288 }
  function GridZ(i: int): int { (i / 48) % 256 }
  function GridY(i: int): int { i % 48 }

  /** The map layout is a bijection between map positions and indices below GridVolume. */
  lemma GridBijection(x: int, z: int, y: int)
    requires 0 <= x < MapBlocks && 0 <= z < MapBlocks && 0 <= y < ChunkHeight
    ensures 0 <= GridIndex(x, z, y) < GridVolume
    ensures GridX(GridIndex(x, z, y)) == x && GridZ(GridIndex(x, z, y)) == z && GridY(GridIndex(x, z, y)) == y
  {
    var i := GridIndex(x, z, y);
    assert i / 48 == x * 256 + z;
    assert (x * 256 + z) % 256 == z;
  }

  lemma GridDecompose(i: int)
    requires 0 <= i < GridVolume
    ensures 0 <= GridX(i) < MapBlocks && 0 <= GridZ(i) < MapBlocks && 0 <= GridY(i) < ChunkHeight
    ensures GridIndex(GridX(i), GridZ(i), GridY(i)) == i
  {
    assert i / 48 == GridX(i) * 256 + GridZ(i);
  }

  // ---------------------------------------------------------------------
  // GetNoiseMap: the 2D field expanded into columns.
  // ---------------------------------------------------------------------

  /** C++ `(int)v`: truncation toward zero, not floor. */
  function TruncateToZero(v: real): (r: int)
    ensures v >= 0.0 ==> 0 <= r && r as real <= v < r as real + 1.0
    ensures v < 0.0 ==> r <= 0 && r as real - 1.0 < v <= r as real
  {
    if v >= 0.0 then v.Floor else -((-v).Floor)
  }

  /** The solid height of a column with scaled noise `n`, clamped to the chunk. */
  function ColumnHeight(n: real): (h: int)
    ensures 0 <= h <= ChunkHeight
  {
    var h := ChunkMinHeight + TruncateToZero(n * (ChunkHeight - ChunkMinHeight) as real);
    if h < 0 then 0 else if h > ChunkHeight then ChunkHeight else h
  }

  /** Noise within one 46th of zero either way gives the bedrock height: truncation, not floor. */
  lemma NearZeroColumn(n: real)
    requires -1.0 < n * 46.0 < 1.0
    ensures ColumnHeight(n) == ChunkMinHeight
  {
  }

  /** Stronger noise never gives a lower column. */
  lemma ColumnHeightMonotone(n1: real, n2: real)
    requires n1 <= n2
    ensures ColumnHeight(n1) <= ColumnHeight(n2)
  {
  }

  /** The first map of GetNoiseMap: the scaled field value of each column, x-major. */
  function FlatEntry(field: Field2, j: int): real
  {
    field(j / 256, j % 256) * NoiseScale
  }

  /** An entry of the map GetNoiseMap returns: the column value below the column height, 0 above. */
  function ColumnEntry(field: Field2, i: int): real
  {
    var n := field(GridX(i), GridZ(i)) * NoiseScale;
    if GridY(i) < ColumnHeight(n) then n else 0.0
  }

  function ColumnMap(field: Field2): (r: seq<real>)
    ensures |r| == GridVolume
  {
    seq(GridVolume, i => ColumnEntry(field, i))
  }

  /**
   * Column expansion: every column of the map is solid up to the height its
   * noise gives, holding the noise value, and zero from there up.
   */
  lemma ColumnExpansion(field: Field2, x: int, z: int, y: int)
    requires 0 <= x < MapBlocks && 0 <= z < MapBlocks && 0 <= y < ChunkHeight
    ensures var n := field(x, z) * NoiseScale;
      0 <= GridIndex(x, z, y) < GridVolume &&
      (y < ColumnHeight(n) ==> ColumnMap(field)[GridIndex(x, z, y)] == n) &&
      (y >= ColumnHeight(n) ==> ColumnMap(field)[GridIndex(x, z, y)] == 0.0)
  {
    GridBijection(x, z, y);
  }

  /** ChunkManager::GetNoiseMap: scale the field per column, then fill each column up to its height. */
  method GetNoiseMap(field: Field2) returns (r: array<real>)
    ensures fresh(r) && r[..] == ColumnMap(field)
  {
    var flat := FlattenField(field);
    ghost var target := ColumnMap(field);
    r := new real[GridVolume](_ => 0.0);
    var x := 0;
    while x < MapBlocks
      modifies r
      invariant 0 <= x <= MapBlocks
      invariant forall i :: 0 <= i < x * 12288 ==> r[i] == target[i]
      invariant forall i :: x * 12288 <= i < GridVolume ==> r[i] == 0.0
    {
      ExpandRow(r, flat, field, x, target);
      x := x + 1;
    }
    assert r[..] == target;
  }

  /** The first loops of GetNoiseMap: the scaled field value of every column, x-major. */
  method FlattenField(field: Field2) returns (flat: array<real>)
    ensures fresh(flat) && flat.Length == MapBlocks * MapBlocks
    ensures forall j :: 0 <= j < flat.Length ==> flat[j] == FlatEntry(field, j)
  {
    flat := new real[MapBlocks * MapBlocks];
    var x := 0;
    while x < MapBlocks
      invariant 0 <= x <= MapBlocks
      invariant forall j :: 0 <= j < x * 256 ==> flat[j] == FlatEntry(field, j)
    {
      FlattenRow(flat, field, x);
      x := x + 1;
    }
  }

  /** The row x of the first map: entries x * 256 .. x * 256 + 255. */
  method FlattenRow(flat: array<real>, field: Field2, x: int)
    requires flat.Length == MapBlocks * MapBlocks && 0 <= x < MapBlocks
    requires forall j :: 0 <= j < x * 256 ==> flat[j] == FlatEntry(field, j)
    modifies flat
    ensures forall j :: 0 <= j < x * 256 + 256 ==> flat[j] == FlatEntry(field, j)
  {
    var z := 0;
    while z < MapBlocks
      invariant 0 <= z <= MapBlocks
      invariant forall j :: 0 <= j < x * 256 + z ==> flat[j] == FlatEntry(field, j)
    {
      assert (x * 256 + z) / 256 == x && (x * 256 + z) % 256 == z;
      flat[x * MapBlocks + z] := field(x, z) * NoiseScale;
      z := z + 1;
    }
  }

  /** Row x of GetNoiseMap's second loops: every column (x, z) expanded from the first map. */
  method ExpandRow(r: array<real>, flat: array<real>, field: Field2, x: int, ghost target: seq<real>)
    requires r.Length == GridVolume && target == ColumnMap(field) && 0 <= x < MapBlocks
    requires flat.Length == MapBlocks * MapBlocks
    requires forall j :: 0 <= j < flat.Length ==> flat[j] == FlatEntry(field, j)
    requires forall i :: 0 <= i < x * 12288 ==> r[i] == target[i]
    requires forall i :: x * 12288 <= i < GridVolume ==> r[i] == 0.0
    modifies r
    ensures forall i :: 0 <= i < x * 12288 + 12288 ==> r[i] == target[i]
    ensures forall i :: x * 12288 + 12288 <= i < GridVolume ==> r[i] == 0.0
  {
    var z := 0;
    while z < MapBlocks
      invariant 0 <= z <= MapBlocks
      invariant forall i :: 0 <= i < x * 12288 + z * 48 ==> r[i] == target[i]
      invariant forall i :: x * 12288 + z * 48 <= i < GridVolume ==> r[i] == 0.0
    {
      assert flat[x * 256 + z] == FlatEntry(field, x * 256 + z);
      assert (x * 256 + z) / 256 == x && (x * 256 + z) % 256 == z;
      ColumnValues(field, x, z);
      ExpandColumn(r, x, z, flat[x * MapBlocks + z], target);
      z := z + 1;
    }
  }

  /** The 48 entries of column (x, z) of the expanded map, by height above the column's base index. */
  lemma ColumnValues(field: Field2, x: int, z: int)
    requires 0 <= x < MapBlocks && 0 <= z < MapBlocks
    ensures var base, n := GridIndex(x, z, 0), field(x, z) * NoiseScale;
      forall i :: base <= i < base + 48 ==> ColumnMap(field)[i] == if i - base < ColumnHeight(n) then n else 0.0
  {
    var base := GridIndex(x, z, 0);
    forall i | base <= i < base + 48
      ensures ColumnMap(field)[i] == if i - base < ColumnHeight(field(x, z) * NoiseScale) then field(x, z) * NoiseScale else 0.0
    {
      var y := i - base;
      assert GridIndex(x, z, y) == i;
      ColumnExpansion(field, x, z, y);
    }
  }

  /**
   * The innermost loop of GetNoiseMap: column (x, z) gets the value `n`
   * below its height, which makes its entries those of the target map.
   */
  method ExpandColumn(r: array<real>, x: int, z: int, n: real, ghost target: seq<real>)
    requires r.Length == GridVolume == |target| && 0 <= x < MapBlocks && 0 <= z < MapBlocks
    requires forall i :: GridIndex(x, z, 0) <= i < GridIndex(x, z, 0) + 48 ==>
               target[i] == if i - GridIndex(x, z, 0) < ColumnHeight(n) then n else 0.0
    requires forall i :: 0 <= i < GridIndex(x, z, 0) ==> r[i] == target[i]
    requires forall i :: GridIndex(x, z, 0) <= i < GridVolume ==> r[i] == 0.0
    modifies r
    ensures forall i :: 0 <= i < GridIndex(x, z, 0) + 48 ==> r[i] == target[i]
    ensures forall i :: GridIndex(x, z, 0) + 48 <= i < GridVolume ==> r[i] == 0.0
  {
    var base := x * 12288 + z * 48;
    var height := ChunkMinHeight + TruncateToZero(n * (ChunkHeight - ChunkMinHeight) as real);
    if height < 0 {
      height := 0;
    }
    if height > ChunkHeight {
      height := ChunkHeight;
    }
    assert height == ColumnHeight(n);
    var y := 0;
    while y < height
      invariant 0 <= y <= height
      invariant forall i :: base <= i < base + y ==> r[i] == n
      invariant forall i :: 0 <= i < GridVolume && !(base <= i < base + y) ==> r[i] == old(r[i])
    {
      r[base + y] := n;
      y := y + 1;
    }
  }

  // ---------------------------------------------------------------------
  // GetNoiseMap3D: the 3D field in the lowest third of the map.
  // ---------------------------------------------------------------------

  /** An entry of the map GetNoiseMap3D returns: the scaled field below CHUNK_MAX_HEIGHT, 0 above. */
  function SolidEntry(field: Field3, i: int): real
  {
    if GridY(i) < ChunkMaxHeight then field(GridX(i), GridY(i), GridZ(i)) * NoiseScale3D else 0.0
  }

  function SolidMap(field: Field3): (r: seq<real>)
    ensures |r| == GridVolume
  {
    seq(GridVolume, i => SolidEntry(field, i))
  }

  /** Band limit: only the lowest sixteen layers of the map carry noise; every entry above is zero. */
  lemma SolidBand(field: Field3, x: int, z: int, y: int)
    requires 0 <= x < MapBlocks && 0 <= z < MapBlocks && 0 <= y < ChunkHeight
    ensures 0 <= GridIndex(x, z, y) < GridVolume
    ensures y < ChunkMaxHeight ==> SolidMap(field)[GridIndex(x, z, y)] == field(x, y, z) * NoiseScale3D
    ensures y >= ChunkMaxHeight ==> SolidMap(field)[GridIndex(x, z, y)] == 0.0
  {
    GridBijection(x, z, y);
  }

  /** ChunkManager::GetNoiseMap3D. */
  method GetNoiseMap3D(field: Field3) returns (r: array<real>)
    ensures fresh(r) && r[..] == SolidMap(field)
  {
    ghost var target := SolidMap(field);
    r := new real[GridVolume](_ => 0.0);
    var x := 0;
    while x < MapBlocks
      invariant 0 <= x <= MapBlocks
      invariant forall i :: 0 <= i < x * 12288 ==> r[i] == target[i]
      invariant forall i :: x * 12288 <= i < GridVolume ==> r[i] == 0.0
    {
      var z := 0;
      while z < MapBlocks
        invariant 0 <= z <= MapBlocks
        invariant forall i :: 0 <= i < x * 12288 + z * 48 ==> r[i] == target[i]
        invariant forall i :: x * 12288 + z * 48 <= i < GridVolume ==> r[i] == 0.0
      {
        SolidValues(field, x, z);
        FillBand(r, x, z, field, target);
        z := z + 1;
      }
      x := x + 1;
    }
    assert r[..] == target;
  }

  /** The 48 entries of column (x, z) of the band-limited map, by height above the column's base index. */
  lemma SolidValues(field: Field3, x: int, z: int)
    requires 0 <= x < MapBlocks && 0 <= z < MapBlocks
    ensures var base := GridIndex(x, z, 0);
      forall i :: base <= i < base + 48 ==>
        SolidMap(field)[i] == if i - base < ChunkMaxHeight then field(x, i - base, z) * NoiseScale3D else 0.0
  {
    var base := GridIndex(x, z, 0);
    forall i | base <= i < base + 48
      ensures SolidMap(field)[i] == if i - base < ChunkMaxHeight then field(x, i - base, z) * NoiseScale3D else 0.0
    {
      var y := i - base;
      assert GridIndex(x, z, y) == i;
      SolidBand(field, x, z, y);
    }
  }

  /**
   * The innermost loop of GetNoiseMap3D: column (x, z) gets the field
   * below CHUNK_MAX_HEIGHT, which makes its entries those of the target map.
   */
  method FillBand(r: array<real>, x: int, z: int, field: Field3, ghost target: seq<real>)
    requires r.Length == GridVolume == |target| && 0 <= x < MapBlocks && 0 <= z < MapBlocks
    requires forall i :: GridIndex(x, z, 0) <= i < GridIndex(x, z, 0) + 48 ==>
               target[i] == if i - GridIndex(x, z, 0) < ChunkMaxHeight then field(x, i - GridIndex(x, z, 0), z) * NoiseScale3D else 0.0
    requires forall i :: 0 <= i < GridIndex(x, z, 0) ==> r[i] == target[i]
    requires forall i :: GridIndex(x, z, 0) <= i < GridVolume ==> r[i] == 0.0
    modifies r
    ensures forall i :: 0 <= i < GridIndex(x, z, 0) + 48 ==> r[i] == target[i]
    ensures forall i :: GridIndex(x, z, 0) + 48 <= i < GridVolume ==> r[i] == 0.0
  {
    var base := x * 12288 + z * 48;
    var y := 0;
    while y < ChunkMaxHeight
      invariant 0 <= y <= ChunkMaxHeight
      invariant forall i :: base <= i < base + y ==> r[i] == field(x, i - base, z) * NoiseScale3D
      invariant forall i :: 0 <= i < GridVolume && !(base <= i < base + y) ==> r[i] == old(r[i])
    {
      r[base + y] := field(x, y, z) * NoiseScale3D;
      y := y + 1;
    }
  }

  // ---------------------------------------------------------------------
  // SmoothNoiseMap and HeightMapBlend.
  // ---------------------------------------------------------------------

  /** glm::smoothstep(0, 1, t). */
  function Smoothstep(t: real): (r: real)
    ensures 0.0 <= r <= 1.0
  {
    var c := if t < 0.0 then 0.0 else if t > 1.0 then 1.0 else t;
    var r := c * c * (3.0 - 2.0 * c);
    MulNonneg(c, c);
    MulNonneg(c * c, 3.0 - 2.0 * c);
    MulNonneg(1.0 - c, 1.0 - c);
    MulNonneg((1.0 - c) * (1.0 - c), 1.0 + 2.0 * c);
    assert 1.0 - r == (1.0 - c) * (1.0 - c) * (1.0 + 2.0 * c);
    r
  }

  lemma MulNonneg(a: real, b: real)
    requires a >= 0.0 && b >= 0.0
    ensures a * b >= 0.0
  {
  }

  /** A fraction of a non-negative amount is at most the amount. */
  lemma FractionAtMost(t: real, d: real)
    requires 0.0 <= t <= 1.0 && d >= 0.0
    ensures 0.0 <= t * d <= d
  {
    MulNonneg(t, d);
    MulNonneg(1.0 - t, d);
    assert (1.0 - t) * d == d - t * d;
  }

  /** The blend `a * (1 - t) + b * t`. */
  function Mix(a: real, b: real, t: real): real
  {
    a * (1.0 - t) + b * t
  }

  /** A blend with a weight in [0, 1] lies between its two inputs. */
  lemma MixBetween(a: real, b: real, t: real)
    requires 0.0 <= t <= 1.0
    ensures a <= b ==> a <= Mix(a, b, t) <= b
    ensures b <= a ==> b <= Mix(a, b, t) <= a
  {
    var d := b - a;
    var e := t * d;
    assert Mix(a, b, t) == a + e;
    if a <= b {
      FractionAtMost(t, d);
      assert 0.0 <= e <= d;
    } else {
      FractionAtMost(t, -d);
      assert t * (-d) == -e;
      assert d <= e <= 0.0;
    }
  }

  /** The weight entry i of a map of length `size` is blended with. */
  function Weight(i: int, size: int): real
    requires size > 0
  {
    Smoothstep(i as real / size as real)
  }

  function Min(a: int, b: int): int { if a < b then a else b }

  /** noiseMap1 after SmoothNoiseMap: the first min(|a|, |b|) entries blended toward `b`. */
  function Smoothed(a: seq<real>, b: seq<real>): (r: seq<real>)
    ensures |r| == |a|
  {
    var size := Min(|a|, |b|);
    seq(|a|, i requires 0 <= i < |a| => if i < size then Mix(a[i], b[i], Weight(i, size)) else a[i])
  }

  /**
   * SmoothNoiseMap changes only the first min(len) entries of the first map,
   * each to a value between the two maps' entries, and starts from the first
   * map's own value.
   */
  lemma SmoothedShape(a: seq<real>, b: seq<real>)
    ensures var r := Smoothed(a, b);
      |r| == |a| &&
      (forall i :: Min(|a|, |b|) <= i < |a| ==> r[i] == a[i]) &&
      (forall i :: 0 <= i < Min(|a|, |b|) ==> (a[i] <= b[i] ==> a[i] <= r[i] <= b[i]) && (b[i] <= a[i] ==> b[i] <= r[i] <= a[i])) &&
      (0 < Min(|a|, |b|) ==> r[0] == a[0])
  {
    var r := Smoothed(a, b);
    var size := Min(|a|, |b|);
    forall i | 0 <= i < size
      ensures (a[i] <= b[i] ==> a[i] <= r[i] <= b[i]) && (b[i] <= a[i] ==> b[i] <= r[i] <= a[i])
    {
      MixBetween(a[i], b[i], Weight(i, size));
    }
    if 0 < size {
      assert Weight(0, size) == 0.0;
    }
  }

  /** ChunkManager::SmoothNoiseMap: blend the first map toward the second, in place. */
  method SmoothNoiseMap(noise1: array<real>, noise2: array<real>)
    modifies noise1
    ensures noise1[..] == Smoothed(old(noise1[..]), old(noise2[..]))
  {
    ghost var a := noise1[..];
    ghost var b := noise2[..];
    var size := Min(noise1.Length, noise2.Length);
    var i := 0;
    while i < size
      invariant 0 <= i <= size
      invariant forall j :: 0 <= j < i ==> noise1[j] == Mix(a[j], b[j], Weight(j, size))
      invariant forall j :: i <= j < noise1.Length ==> noise1[j] == a[j]
      invariant noise1 != noise2 ==> noise2[..] == b
    {
      var time := Smoothstep(i as real / size as real);
      noise1[i] := noise1[i] * (1.0 - time) + noise2[i] * time;
      i := i + 1;
    }
    assert noise1[..] == Smoothed(a, b);
  }

  /** noiseMap1 after HeightMapBlend: unchanged on a size mismatch, else blended where the height map is set. */
  function Blended(a: seq<real>, h: seq<real>): (r: seq<real>)
    ensures |r| == |a|
  {
    if |a| != |h| then a
    else seq(|a|, i requires 0 <= i < |a| => if h[i] != 0.0 then Mix(a[i], h[i], Weight(i, |h|)) else a[i])
  }

  /**
   * HeightMapBlend changes nothing when the sizes differ, leaves every entry
   * whose height-map value is zero untouched, and moves every other entry
   * to a value between the two maps' entries.
   */
  lemma BlendedShape(a: seq<real>, h: seq<real>)
    ensures var r := Blended(a, h);
      (|a| != |h| ==> r == a) &&
      (forall i :: 0 <= i < |a| && i < |h| && h[i] == 0.0 ==> r[i] == a[i]) &&
      (forall i :: 0 <= i < |a| && i < |h| ==> (a[i] <= h[i] ==> a[i] <= r[i] <= h[i]) && (h[i] <= a[i] ==> h[i] <= r[i] <= a[i]))
  {
    var r := Blended(a, h);
    if |a| == |h| {
      forall i | 0 <= i < |a| && h[i] != 0.0
        ensures (a[i] <= h[i] ==> a[i] <= r[i] <= h[i]) && (h[i] <= a[i] ==> h[i] <= r[i] <= a[i])
      {
        MixBetween(a[i], h[i], Weight(i, |h|));
      }
    }
  }

  /** ChunkManager::HeightMapBlend: blend the first map toward the height map where it is set, in place. */
  method HeightMapBlend(noise1: array<real>, heightMap: array<real>)
    modifies noise1
    ensures noise1[..] == Blended(old(noise1[..]), old(heightMap[..]))
  {
    if noise1.Length != heightMap.Length {
      return;
    }
    ghost var a := noise1[..];
    ghost var h := heightMap[..];
    var i := 0;
    while i < heightMap.Length
      invariant 0 <= i <= heightMap.Length
      invariant forall j :: 0 <= j < i ==> noise1[j] == if h[j] != 0.0 then Mix(a[j], h[j], Weight(j, |h|)) else a[j]
      invariant forall j :: i <= j < noise1.Length ==> noise1[j] == a[j]
      invariant noise1 != heightMap ==> heightMap[..] == h
    {
      if heightMap[i] != 0.0 {
        var time := Smoothstep(i as real / heightMap.Length as real);
        noise1[i] := noise1[i] * (1.0 - time) + heightMap[i] * time;
      }
      i := i + 1;
    }
    assert noise1[..] == Blended(a, h);
  }

  // ---------------------------------------------------------------------
  // ProcessNoiseMap: slicing and topology.
  // ---------------------------------------------------------------------

  /** Grid coordinates of chunk `index`: x = index / 16, z = index % 16. */
  function ChunkX(index: int): int { index / MapSize }
  function ChunkZ(index: int): int { index % MapSize }

  /** The offset of chunk `index`: the map is centred on the origin. */
  function MapOffset(index: int): (o: Offset)
  {
    Offset(ChunkX(index) * ChunkSize - MapSize * ChunkSize / 2, ChunkZ(index) * ChunkSize - MapSize * ChunkSize / 2)
  }

  /** A chunk index and its grid coordinates determine each other. */
  lemma ChunkCoords(x: int, z: int)
    requires 0 <= x < MapSize && 0 <= z < MapSize
    ensures 0 <= x * MapSize + z < ChunkCount
    ensures ChunkX(x * MapSize + z) == x && ChunkZ(x * MapSize + z) == z
  {
  }

  lemma ChunkDecompose(index: int)
    requires 0 <= index < ChunkCount
    ensures 0 <= ChunkX(index) < MapSize && 0 <= ChunkZ(index) < MapSize
    ensures index == ChunkX(index) * MapSize + ChunkZ(index)
  {
  }

  /** The neighbours ProcessNoiseMap hands chunk `index`, in the order front, back, left, right. */
  function MapNeighbours(index: nat): (nbs: seq<Option<nat>>)
    ensures |nbs| == 4
  {
    var x := ChunkX(index);
    var z := ChunkZ(index);
    [ if z < MapSize - 1 then Some(index + 1) else None,
      if z > 0 then Some(index - 1) else None,
      if x > 0 then Some(index - MapSize) else None,
      if x < MapSize - 1 then Some(index + MapSize) else None ]
  }

  function MapLinks(index: nat): Links
  {
    var nbs := MapNeighbours(index);
    Links(nbs[0], nbs[1], nbs[2], nbs[3])
  }

  /** b is a's front neighbour exactly when a is b's back neighbour. */
  lemma FrontBackSymmetric(a: nat, b: nat)
    requires a < ChunkCount && b < ChunkCount
    ensures MapLinks(a).front == Some(b) <==> MapLinks(b).back == Some(a)
  {
    ChunkDecompose(a);
    ChunkDecompose(b);
    if MapLinks(a).front == Some(b) {
      ChunkCoords(ChunkX(a), ChunkZ(a) + 1);
    }
    if MapLinks(b).back == Some(a) {
      ChunkCoords(ChunkX(b), ChunkZ(b) - 1);
    }
  }

  /** b is a's right neighbour exactly when a is b's left neighbour. */
  lemma RightLeftSymmetric(a: nat, b: nat)
    requires a < ChunkCount && b < ChunkCount
    ensures MapLinks(a).right == Some(b) <==> MapLinks(b).left == Some(a)
  {
    ChunkDecompose(a);
    ChunkDecompose(b);
    if MapLinks(a).right == Some(b) {
      ChunkCoords(ChunkX(a) + 1, ChunkZ(a));
    }
    if MapLinks(b).left == Some(a) {
      ChunkCoords(ChunkX(b) - 1, ChunkZ(b));
    }
  }

  /**
   * Every link stays inside the grid and leads to the chunk 16 blocks away
   * on the matching axis, the direction AddBlock forwards an overflow in.
   */
  lemma LinkOffsets(a: nat)
    requires a < ChunkCount
    ensures var n := MapLinks(a);
      var o := MapOffset(a);
      (n.front.Some? ==> n.front.value < ChunkCount && MapOffset(n.front.value) == Offset(o.x, o.z + ChunkSize)) &&
      (n.back.Some? ==> n.back.value < ChunkCount && MapOffset(n.back.value) == Offset(o.x, o.z - ChunkSize)) &&
      (n.right.Some? ==> n.right.value < ChunkCount && MapOffset(n.right.value) == Offset(o.x + ChunkSize, o.z)) &&
      (n.left.Some? ==> n.left.value < ChunkCount && MapOffset(n.left.value) == Offset(o.x - ChunkSize, o.z))
  {
    ChunkDecompose(a);
    var x := ChunkX(a);
    var z := ChunkZ(a);
    if z < MapSize - 1 { ChunkCoords(x, z + 1); }
    if z > 0 { ChunkCoords(x, z - 1); }
    if x < MapSize - 1 { ChunkCoords(x + 1, z); }
    if x > 0 { ChunkCoords(x - 1, z); }
  }

  /** An arena laid out as ProcessNoiseMap leaves it is coherent: every link leads to the chunk next to it. */
  lemma MapLayoutCoherent(world: seq<Chunk>)
    requires |world| == ChunkCount
    requires forall j :: 0 <= j < |world| ==> world[j].offset == MapOffset(j) && world[j].links == MapLinks(j)
    ensures Coherent(world)
  {
    forall k | 0 <= k < |world|
      ensures var o := world[k].offset;
        var n := world[k].links;
        LinkTo(world, n.left, Offset(o.x - ChunkSize, o.z)) &&
        LinkTo(world, n.right, Offset(o.x + ChunkSize, o.z)) &&
        LinkTo(world, n.back, Offset(o.x, o.z - ChunkSize)) &&
        LinkTo(world, n.front, Offset(o.x, o.z + ChunkSize))
    {
      LinkOffsets(k);
    }
  }

  /** The map index slice entry `i` of chunk `index` reads. */
  function SliceIndex(index: int, i: int): int
  {
    var localX := i / (ChunkSize * ChunkHeight);
    var localZ := (i / ChunkHeight) % ChunkSize;
    var localY := i % ChunkHeight;
    (ChunkX(index) * ChunkSize + localX) * 12288 + (ChunkZ(index) * ChunkSize + localZ) * ChunkHeight + localY
  }

  lemma SliceIndexInMap(index: int, i: int)
    requires 0 <= index < ChunkCount && 0 <= i < Volume
    ensures 0 <= SliceIndex(index, i) < GridVolume
  {
    var lx := i / 768;
    var lz := (i / 48) % 16;
    assert 0 <= lx < 16 && 0 <= lz < 16 && 0 <= i % 48 < 48;
    var X := ChunkX(index) * 16 + lx;
    var Z := ChunkZ(index) * 16 + lz;
    assert 0 <= X < 256 && 0 <= Z < 256;
    GridBijection(X, Z, i % 48);
  }

  /** The noise slice ProcessNoiseMap hands chunk `index`. */
  function Slice(noise: seq<real>, index: int): (s: seq<real>)
    requires |noise| >= GridVolume && 0 <= index < ChunkCount
    ensures |s| == Volume
  {
    seq(Volume, i requires 0 <= i < Volume =>
      SliceIndexInMap(index, i);
      noise[SliceIndex(index, i)])
  }

  /**
   * The slicing inverts InitTerrain's layout: the noise InitTerrain reads
   * for local block l of chunk `index` is the map noise at that block's own
   * world position, shifted by half the map so the corner is (0, 0).
   */
  lemma SliceMatchesWorld(noise: seq<real>, index: nat, l: Pos)
    requires |noise| >= GridVolume && index < ChunkCount && InBounds(l)
    ensures var p := Pos(l.x + MapOffset(index).x, l.y, l.z + MapOffset(index).z);
      var half := MapSize * ChunkSize / 2;
      0 <= GridIndex(p.x + half, p.z + half, p.y) < GridVolume &&
      Slice(noise, index)[NoiseIndex(l)] == noise[GridIndex(p.x + half, p.z + half, p.y)]
  {
    ChunkDecompose(index);
    var gx, gz := ChunkX(index) * 16 + l.x, ChunkZ(index) * 16 + l.z;
    assert l.x + MapOffset(index).x + MapSize * ChunkSize / 2 == gx;
    assert l.z + MapOffset(index).z + MapSize * ChunkSize / 2 == gz;
    SliceIndexAt(index, l);
    GridBijection(gx, gz, l.y);
    assert Slice(noise, index)[NoiseIndex(l)] == noise[SliceIndex(index, NoiseIndex(l))];
  }

  /** Slice position NoiseIndex(l) of chunk `index` reads the map at the block's grid position. */
  lemma SliceIndexAt(index: nat, l: Pos)
    requires index < ChunkCount && InBounds(l)
    ensures SliceIndex(index, NoiseIndex(l)) == GridIndex(ChunkX(index) * 16 + l.x, ChunkZ(index) * 16 + l.z, l.y)
  {
    var i := NoiseIndex(l);
    NoiseIndexBijection(l);
    assert i / 768 == l.x && (i / 48) % 16 == l.z && i % 48 == l.y;
  }

  /** Chunk `index` after ProcessNoiseMap: its links, its offset and its carved terrain. */
  function Processed(noise: seq<real>, ch: Chunk, index: nat, is3D: bool, table: MaterialTable): (r: Chunk)
    requires |noise| >= GridVolume && index < ChunkCount && WellFormed(ch) && HasWorldMaterials(table)
    ensures WellFormed(r)
  {
    ch.(links := MapLinks(index), offset := MapOffset(index),
        blocks := TerrainBlocks(ch.blocks, Slice(noise, index), is3D, table))
  }

  /**
   * ChunkManager::ProcessNoiseMap: for every chunk of the grid, slice its
   * noise, collect its neighbours and run InitTerrain. The slice always has
   * InitTerrain's size and the list four entries, so no chunk is refused.
   */
  method ProcessNoiseMap(noise: array<real>, world: array<Chunk>, is3D: bool, table: MaterialTable)
    requires noise.Length >= GridVolume && world.Length >= ChunkCount && HasWorldMaterials(table)
    requires forall j :: 0 <= j < ChunkCount ==> WellFormed(world[j])
    modifies world
    ensures forall j :: 0 <= j < ChunkCount ==> world[j] == Processed(noise[..], old(world[j]), j, is3D, table)
    ensures forall j :: ChunkCount <= j < world.Length ==> world[j] == old(world[j])
  {
    ghost var w0 := world[..];
    var index := 0;
    while index < MapSize * MapSize
      invariant 0 <= index <= ChunkCount
      invariant forall j :: 0 <= j < index ==> world[j] == Processed(noise[..], w0[j], j, is3D, table)
      invariant forall j :: index <= j < world.Length ==> world[j] == w0[j]
    {
      ProcessChunk(noise, world, index, is3D, table);
      index := index + 1;
    }
  }

  /** One iteration of ProcessNoiseMap: the offset, the noise slice and the neighbours of chunk `index`, then InitTerrain. */
  method ProcessChunk(noise: array<real>, world: array<Chunk>, index: nat, is3D: bool, table: MaterialTable)
    requires noise.Length >= GridVolume && index < ChunkCount <= world.Length && HasWorldMaterials(table)
    requires WellFormed(world[index])
    modifies world
    ensures world[index] == Processed(noise[..], old(world[index]), index, is3D, table)
    ensures forall j :: 0 <= j < world.Length && j != index ==> world[j] == old(world[j])
  {
    var x := index / MapSize;
    var z := index % MapSize;
    var offset := Offset(x * ChunkSize - MapSize * ChunkSize / 2, z * ChunkSize - MapSize * ChunkSize / 2);
    var sub := CutSlice(noise, index);
    var nbs := [None, None, None, None];
    if z < MapSize - 1 { nbs := nbs[0 := Some(index + 1)]; }
    if z > 0 { nbs := nbs[1 := Some(index - 1)]; }
    if x > 0 { nbs := nbs[2 := Some(index - MapSize)]; }
    if x < MapSize - 1 { nbs := nbs[3 := Some(index + MapSize)]; }
    assert nbs == MapNeighbours(index) && offset == MapOffset(index);
    ghost var target := Processed(noise[..], world[index], index, is3D, table);
    var _ := InitTerrain(world, index, offset, sub, nbs, is3D, table);
    assert world[index] == target;
  }

  /** The flattened inner loop of ProcessNoiseMap: the noise slice of chunk `index`. */
  method CutSlice(noise: array<real>, index: int) returns (sub: seq<real>)
    requires noise.Length >= GridVolume && 0 <= index < ChunkCount
    ensures sub == Slice(noise[..], index)
  {
    sub := [];
    var i := 0;
    while i < ChunkSize * ChunkSize * ChunkHeight
      invariant 0 <= i <= Volume && |sub| == i
      invariant forall j :: 0 <= j < i ==> sub[j] == Slice(noise[..], index)[j]
    {
      var localX := i / (ChunkSize * ChunkHeight);
      var localZ := (i / ChunkHeight) % ChunkSize;
      var localY := i % ChunkHeight;
      var noiseIndex := (index / MapSize * ChunkSize + localX) * 12288 + (index % MapSize * ChunkSize + localZ) * ChunkHeight + localY;
      SliceIndexInMap(index, i);
      assert noiseIndex == SliceIndex(index, i);
      sub := sub + [noise[noiseIndex]];
      i := i + 1;
    }
  }

  // ---------------------------------------------------------------------
  // GetChunks and the sequential GenerateChunks.
  // ---------------------------------------------------------------------

  /** ChunkManager::GetChunks: `size` default-constructed chunks. */
  method GetChunks(size: nat) returns (chunks: seq<Chunk>)
    ensures |chunks| == size
    ensures forall j :: 0 <= j < size ==> chunks[j] == NewChunk()
  {
    chunks := [];
    var j := 0;
    while j < size
      invariant 0 <= j <= size && |chunks| == j
      invariant forall i :: 0 <= i < j ==> chunks[i] == NewChunk()
    {
      chunks := chunks + [NewChunk()];
      j := j + 1;
    }
  }

  /** The map ProcessNoiseMap reads: the first map smoothed toward the second, then blended with the height map in 3D mode. */
  function GenerationNoise(is3D: bool, flat1: Field2, flat2: Field2, solid1: Field3, solid2: Field3): (r: seq<real>)
    ensures |r| == GridVolume
  {
    var heightMap := ColumnMap(flat1);
    var noise1 := if is3D then SolidMap(solid1) else ColumnMap(flat1);
    var noise2 := if is3D then SolidMap(solid2) else ColumnMap(flat2);
    var smoothed := Smoothed(noise1, noise2);
    if is3D then Blended(smoothed, heightMap) else smoothed
  }

  /** Every chunk of the grid after the terrain pass over fresh chunks. */
  function TerrainWorld(noise: seq<real>, is3D: bool, table: MaterialTable): (r: seq<Chunk>)
    requires |noise| >= GridVolume && HasWorldMaterials(table)
    ensures |r| == ChunkCount
  {
    seq(ChunkCount, j requires 0 <= j < ChunkCount => Processed(noise, NewChunk(), j, is3D, table))
  }

  /** Chunk j after the terrain pass: the grid layout, no mesh, and fresh blocks carved with its slice. */
  lemma TerrainChunk(noise: seq<real>, is3D: bool, table: MaterialTable, j: nat)
    requires |noise| >= GridVolume && HasWorldMaterials(table) && j < ChunkCount
    ensures var ch := TerrainWorld(noise, is3D, table)[j];
      ch.offset == MapOffset(j) && ch.links == MapLinks(j) && ch.mesh == None && WellFormed(ch) &&
      ch.blocks == TerrainBlocks(NewChunk().blocks, Slice(noise, j), is3D, table)
  {
  }

  /** The terrain pass leaves a well-formed, coherent arena of table materials without meshes. */
  lemma TerrainWorldOk(noise: seq<real>, is3D: bool, table: MaterialTable)
    requires |noise| >= GridVolume && HasWorldMaterials(table) && ValidTable(table)
    ensures WorldOk(TerrainWorld(noise, is3D, table)) && Stocked(TerrainWorld(noise, is3D, table), table)
    ensures forall j :: 0 <= j < ChunkCount ==> TerrainWorld(noise, is3D, table)[j].mesh == None
  {
    var w := TerrainWorld(noise, is3D, table);
    NewChunkStocked(table);
    forall j | 0 <= j < ChunkCount
      ensures w[j].offset == MapOffset(j) && w[j].links == MapLinks(j) && w[j].mesh == None && WellFormed(w[j])
      ensures StockedBlocks(w[j].blocks, table)
    {
      TerrainChunk(noise, is3D, table, j);
      TerrainStocked(NewChunk().blocks, Slice(noise, j), is3D, table);
    }
    MapLayoutCoherent(w);
  }

  /** The samples of every chunk lie inside it. */
  ghost predicate SamplesInRegion(samples: seq<seq<Sample>>)
  {
    forall k :: 0 <= k < |samples| ==> ChunkSamplesInRegion(samples[k])
  }

  /** The samples of one chunk lie inside it. */
  ghost predicate ChunkSamplesInRegion(samples: seq<Sample>)
  {
    forall i :: 0 <= i < |samples| ==> InRegion(samples[i])
  }

  /** What the environment pass needs: a coherent arena, one sample list per chunk inside it, the world's materials. */
  ghost predicate EnvironmentInputs(world: seq<Chunk>, samples: seq<seq<Sample>>, table: MaterialTable)
  {
    WorldOk(world) && |samples| == |world| && HasWorldMaterials(table) && SamplesInRegion(samples)
  }

  /**
   * InitEnvironment on chunks 0 .. n - 1 in order, each seeing the trees of
   * the earlier ones. The pass keeps the arena's layout, so it stays coherent,
   * and it keeps every active block a table material.
   */
  ghost function Environments(world: seq<Chunk>, samples: seq<seq<Sample>>, table: MaterialTable, n: nat): (r: seq<Chunk>)
    requires EnvironmentInputs(world, samples, table) && n <= |world|
    ensures SameLayout(world, r)
    ensures ValidTable(table) && Stocked(world, table) ==> Stocked(r, table)
  {
    if n == 0 then world else EnvironmentOn(world, Environments(world, samples, table, n - 1), n - 1, samples, table)
  }

  /**
   * InitEnvironment on chunk k of an arena laid out like `world`, which is
   * the shape the environment pass keeps the arena in; any other arena is
   * left as it is.
   */
  ghost function EnvironmentOn(world: seq<Chunk>, before: seq<Chunk>, k: nat, samples: seq<seq<Sample>>, table: MaterialTable): (r: seq<Chunk>)
    ensures SameLayout(world, before) ==> SameLayout(world, r)
    ensures ValidTable(table) && Stocked(before, table) ==> Stocked(r, table)
  {
    if EnvironmentInputs(world, samples, table) && SameLayout(world, before) && k < |world| then
      EnvironmentKeepsOk(world, before, k, samples, table);
      EnvironmentSpec(before, k, samples[k], table)
    else before
  }

  /**
   * One InitEnvironment, on chunk k of an arena laid out like `world`, keeps
   * that layout and the table materials.
   */
  lemma EnvironmentKeepsOk(world: seq<Chunk>, before: seq<Chunk>, k: nat, samples: seq<seq<Sample>>, table: MaterialTable)
    requires EnvironmentInputs(world, samples, table) && SameLayout(world, before) && k < |world|
    ensures WorldOk(before) && ChunkSamplesInRegion(samples[k])
    ensures SameLayout(world, EnvironmentSpec(before, k, samples[k], table))
    ensures WorldOk(EnvironmentSpec(before, k, samples[k], table))
    ensures ValidTable(table) && Stocked(before, table) ==> Stocked(EnvironmentSpec(before, k, samples[k], table), table)
  {
    SameLayoutKeepsOk(world, before);
    assert ChunkSamplesInRegion(samples[k]);
    var after := EnvironmentSpec(before, k, samples[k], table);
    SameLayoutTransitive(world, before, after);
    SameLayoutKeepsOk(world, after);
    if ValidTable(table) && Stocked(before, table) {
      EnvironmentStocked(before, k, samples[k], table);
    }
  }

  /** One more chunk of the environment pass is one more InitEnvironment on the arena reached so far. */
  lemma EnvironmentsStep(world: seq<Chunk>, samples: seq<seq<Sample>>, table: MaterialTable, n: nat)
    requires EnvironmentInputs(world, samples, table) && n < |world|
    ensures WorldOk(Environments(world, samples, table, n)) && ChunkSamplesInRegion(samples[n])
    ensures Environments(world, samples, table, n + 1) ==
      EnvironmentSpec(Environments(world, samples, table, n), n, samples[n], table)
    ensures WorldOk(Environments(world, samples, table, n + 1))
    ensures ValidTable(table) && Stocked(Environments(world, samples, table, n), table) ==>
      Stocked(Environments(world, samples, table, n + 1), table)
  {
    EnvironmentKeepsOk(world, Environments(world, samples, table, n), n, samples, table);
  }

  /** The chunk a meshed arena holds: blocks, offset, links and flag as before, any mesh. */
  ghost predicate OnlyMeshes(a: seq<Chunk>, b: seq<Chunk>)
  {
    |a| == |b| && forall j :: 0 <= j < |a| ==> b[j] == a[j].(mesh := b[j].mesh)
  }

  /** Building meshes keeps the arena well-formed, coherent and made of table materials. */
  lemma OnlyMeshesKeepsOk(a: seq<Chunk>, b: seq<Chunk>, table: MaterialTable)
    requires WorldOk(a) && OnlyMeshes(a, b)
    ensures WorldOk(b)
    ensures Stocked(a, table) ==> Stocked(b, table)
  {
    forall k | 0 <= k < |b|
      ensures WellFormed(b[k])
    {
      assert WellFormed(a[k]);
    }
    assert Coherent(b) by {
      forall k | 0 <= k < |b|
        ensures var o := b[k].offset;
          var n := b[k].links;
          LinkTo(b, n.left, Offset(o.x - ChunkSize, o.z)) &&
          LinkTo(b, n.right, Offset(o.x + ChunkSize, o.z)) &&
          LinkTo(b, n.back, Offset(o.x, o.z - ChunkSize)) &&
          LinkTo(b, n.front, Offset(o.x, o.z + ChunkSize))
      {
        assert b[k].offset == a[k].offset && b[k].links == a[k].links;
        var n := a[k].links;
        if n.left.Some? && n.left.value < |a| { assert b[n.left.value].offset == a[n.left.value].offset; }
        if n.right.Some? && n.right.value < |a| { assert b[n.right.value].offset == a[n.right.value].offset; }
        if n.back.Some? && n.back.value < |a| { assert b[n.back.value].offset == a[n.back.value].offset; }
        if n.front.Some? && n.front.value < |a| { assert b[n.front.value].offset == a[n.front.value].offset; }
      }
    }
    if Stocked(a, table) {
      forall j | 0 <= j < |b|
        ensures StockedBlocks(b[j].blocks, table)
      {
        assert b[j].blocks == a[j].blocks;
      }
    }
  }

  /** CreateMesh on chunks 0 .. n - 1 in order. */
  function Meshes(world: seq<Chunk>, table: MaterialTable, n: nat): (r: seq<Chunk>)
    requires WorldOk(world) && Stocked(world, table) && ValidTable(table) && n <= |world|
    ensures OnlyMeshes(world, r)
    ensures forall j :: 0 <= j < n ==> r[j].mesh.Some?
    ensures forall j :: n <= j < |world| ==> r[j] == world[j]
  {
    if n == 0 then world
    else
      var before := Meshes(world, table, n - 1);
      OnlyMeshesKeepsOk(world, before, table);
      var k := n - 1;
      if before[k].mesh.Some? then before
      else
        StockedIsTextured(before[k], table);
        before[k := before[k].(mesh := Some(MeshUpTo(before, k, Volume)))]
  }

  /** One more chunk of the mesh pass is one more CreateMesh on the arena reached so far. */
  lemma MeshesStep(world: seq<Chunk>, table: MaterialTable, n: nat)
    requires WorldOk(world) && Stocked(world, table) && ValidTable(table) && n < |world|
    ensures var before := Meshes(world, table, n);
      WorldOk(before) && Textured(before[n]) &&
      Meshes(world, table, n + 1) ==
        if before[n].mesh.Some? then before
        else before[n := before[n].(mesh := Some(MeshUpTo(before, n, Volume)))]
  {
    var before := Meshes(world, table, n);
    OnlyMeshesKeepsOk(world, before, table);
    StockedIsTextured(before[n], table);
  }

  /**
   * Every mesh the generation pass builds is a well-formed list of quads:
   * four vertices and six in-range indices per drawn face.
   */
  lemma MeshesWellFormed(world: seq<Chunk>, table: MaterialTable, n: nat)
    requires WorldOk(world) && Stocked(world, table) && ValidTable(table) && n <= |world|
    requires forall j :: 0 <= j < |world| ==> world[j].mesh == None
    ensures forall j :: 0 <= j < n ==> MeshOk(Meshes(world, table, n)[j].mesh.value)
  {
    if n > 0 {
      MeshesWellFormed(world, table, n - 1);
    }
  }

  /**
   * What the sequential GenerateChunks builds: the terrain of every chunk,
   * then the environment of every chunk, then the mesh of every chunk.
   */
  ghost function Generated(is3D: bool, flat1: Field2, flat2: Field2, solid1: Field3, solid2: Field3,
                     samples: seq<seq<Sample>>, table: MaterialTable): (r: seq<Chunk>)
    requires HasWorldMaterials(table) && ValidTable(table)
    requires |samples| == ChunkCount && SamplesInRegion(samples)
    ensures |r| == ChunkCount
  {
    Populated(GenerationNoise(is3D, flat1, flat2, solid1, solid2), is3D, samples, table)
  }

  /** The three passes over the chunks, given the final noise map. */
  ghost function Populated(noise: seq<real>, is3D: bool, samples: seq<seq<Sample>>, table: MaterialTable): (r: seq<Chunk>)
    requires |noise| >= GridVolume && HasWorldMaterials(table) && ValidTable(table)
    requires |samples| == ChunkCount && SamplesInRegion(samples)
    ensures |r| == ChunkCount
  {
    var terrain := TerrainWorld(noise, is3D, table);
    TerrainWorldOk(noise, is3D, table);
    var environment := Environments(terrain, samples, table, ChunkCount);
    SameLayoutKeepsOk(terrain, environment);
    Meshes(environment, table, ChunkCount)
  }

  /**
   * The generated world is 16 x 16 chunks laid out as a coherent grid, and
   * every chunk ends with a well-formed mesh.
   */
  lemma GeneratedWorld(is3D: bool, flat1: Field2, flat2: Field2, solid1: Field3, solid2: Field3,
                       samples: seq<seq<Sample>>, table: MaterialTable)
    requires HasWorldMaterials(table) && ValidTable(table)
    requires |samples| == ChunkCount && SamplesInRegion(samples)
    ensures var r := Generated(is3D, flat1, flat2, solid1, solid2, samples, table);
      |r| == MapSize * MapSize &&
      (forall j :: 0 <= j < ChunkCount ==> r[j].offset == MapOffset(j) && r[j].links == MapLinks(j)) &&
      (forall j :: 0 <= j < ChunkCount ==> r[j].mesh.Some? && MeshOk(r[j].mesh.value))
  {
    var noise := GenerationNoise(is3D, flat1, flat2, solid1, solid2);
    var terrain := TerrainWorld(noise, is3D, table);
    TerrainWorldOk(noise, is3D, table);
    var environment := Environments(terrain, samples, table, ChunkCount);
    SameLayoutKeepsOk(terrain, environment);
    var r := Meshes(environment, table, ChunkCount);
    assert r == Generated(is3D, flat1, flat2, solid1, solid2, samples, table);
    forall j | 0 <= j < ChunkCount
      ensures r[j].offset == MapOffset(j) && r[j].links == MapLinks(j) && environment[j].mesh == None
    {
      TerrainChunk(noise, is3D, table, j);
      assert r[j] == environment[j].(mesh := r[j].mesh);
    }
    MeshesWellFormed(environment, table, ChunkCount);
  }

  /**
   * ChunkManager::GenerateChunks on its sequential path: build the noise
   * maps, allocate the chunks, blend, run the terrain pass, then
   * InitEnvironment on every chunk, then CreateMesh on every chunk.
   */
  method GenerateChunks(is3D: bool, flat1: Field2, flat2: Field2, solid1: Field3, solid2: Field3,
                        samples: seq<seq<Sample>>, table: MaterialTable) returns (world: array<Chunk>)
    requires HasWorldMaterials(table) && ValidTable(table)
    requires |samples| == ChunkCount && SamplesInRegion(samples)
    ensures fresh(world) && world.Length == MapSize * MapSize
    ensures world[..] == Generated(is3D, flat1, flat2, solid1, solid2, samples, table)
  {
    var heightMap := GetNoiseMap(flat1);
    var noiseMap1, noiseMap2;
    if is3D {
      noiseMap1 := GetNoiseMap3D(solid1);
      noiseMap2 := GetNoiseMap3D(solid2);
    } else {
      noiseMap1 := GetNoiseMap(flat1);
      noiseMap2 := GetNoiseMap(flat2);
    }
    var chunks := GetChunks(MapSize * MapSize);
    world := new Chunk[|chunks|](j requires 0 <= j < |chunks| => chunks[j]);
    SmoothNoiseMap(noiseMap1, noiseMap2);
    if is3D {
      HeightMapBlend(noiseMap1, heightMap);
    }
    assert noiseMap1[..] == GenerationNoise(is3D, flat1, flat2, solid1, solid2);
    PopulateWorld(noiseMap1, world, is3D, samples, table);
  }

  /** The three passes of GenerateChunks over freshly allocated chunks: terrain, environment, meshes. */
  method PopulateWorld(noise: array<real>, world: array<Chunk>, is3D: bool, samples: seq<seq<Sample>>, table: MaterialTable)
    requires noise.Length >= GridVolume && HasWorldMaterials(table) && ValidTable(table)
    requires |samples| == ChunkCount && SamplesInRegion(samples)
    requires world.Length == ChunkCount && forall j :: 0 <= j < ChunkCount ==> world[j] == NewChunk()
    modifies world
    ensures world[..] == Populated(noise[..], is3D, samples, table)
  {
    ghost var terrain := TerrainPass(noise, world, is3D, table);
    TerrainWorldOk(noise[..], is3D, table);
    InitEnvironments(world, samples, table);
    ghost var environment := Environments(terrain, samples, table, ChunkCount);
    SameLayoutKeepsOk(terrain, environment);
    LayoutKeepsMeshless(terrain, environment);
    assert Populated(noise[..], is3D, samples, table) == Meshes(environment, table, ChunkCount);
    var meshed := CreateMeshes(world, table);
  }

  /** The terrain pass of GenerateChunks over freshly allocated chunks. */
  method TerrainPass(noise: array<real>, world: array<Chunk>, is3D: bool, table: MaterialTable)
    returns (ghost terrain: seq<Chunk>)
    requires noise.Length >= GridVolume && HasWorldMaterials(table)
    requires world.Length == ChunkCount && forall j :: 0 <= j < ChunkCount ==> world[j] == NewChunk()
    modifies world
    ensures terrain == TerrainWorld(noise[..], is3D, table) && world[..] == terrain
  {
    ProcessNoiseMap(noise, world, is3D, table);
    terrain := TerrainWorld(noise[..], is3D, table);
    assert world[..] == terrain;
  }

  /** The first range-for of GenerateChunks: InitEnvironment on every chunk in order. */
  method InitEnvironments(world: array<Chunk>, samples: seq<seq<Sample>>, table: MaterialTable)
    requires EnvironmentInputs(world[..], samples, table)
    modifies world
    ensures world[..] == Environments(old(world[..]), samples, table, world.Length)
  {
    ghost var w0 := world[..];
    var k := 0;
    while k < world.Length
      invariant 0 <= k <= world.Length
      invariant world[..] == Environments(w0, samples, table, k)
    {
      EnvironmentsStep(w0, samples, table, k);
      InitEnvironment(world, k, samples[k], table);
      k := k + 1;
    }
  }

  /** The index of the first chunk that already holds a mesh, or |world| when none does. */
  function MeshStop(world: seq<Chunk>): (k: nat)
    ensures k <= |world|
    ensures forall j :: 0 <= j < k ==> world[j].mesh.None?
    ensures forall j :: 0 <= j < |world| && world[j].mesh.Some? ==> k <= j
    ensures k < |world| ==> world[k].mesh.Some?
  {
    if world == [] || world[0].mesh.Some? then 0 else 1 + MeshStop(world[1..])
  }

  /** Reaching a chunk with a mesh without passing MeshStop means standing on it; a meshless one lies before it. */
  lemma MeshStopAt(world: seq<Chunk>, k: nat)
    requires k < |world| && k <= MeshStop(world)
    ensures world[k].mesh.Some? ==> MeshStop(world) == k
    ensures world[k].mesh.None? ==> k < MeshStop(world)
  {
  }

  /** An arena laid out like a meshless one is meshless too, so the mesh pass runs to its end. */
  lemma LayoutKeepsMeshless(a: seq<Chunk>, b: seq<Chunk>)
    requires SameLayout(a, b) && forall j :: 0 <= j < |a| ==> a[j].mesh == None
    ensures MeshStop(b) == |b|
  {
    if MeshStop(b) < |b| {
      assert a[MeshStop(b)].mesh == b[MeshStop(b)].mesh;
    }
  }

  /**
   * The second range-for of GenerateChunks: CreateMesh on every chunk in order.
   * CreateMesh throws on a chunk that already holds a mesh, which ends the loop
   * and GenerateChunks; the meshes built before it stay.
   */
  method CreateMeshes(world: array<Chunk>, table: MaterialTable) returns (r: Outcome<ChunkError>)
    requires WorldOk(world[..]) && Stocked(world[..], table) && ValidTable(table)
    modifies world
    ensures r == Pass <==> MeshStop(old(world[..])) == world.Length
    ensures r.Fail? ==> r.error == MeshExists
    ensures world[..] == Meshes(old(world[..]), table, MeshStop(old(world[..])))
  {
    ghost var w0 := world[..];
    ghost var stop := MeshStop(w0);
    var k := 0;
    while k < world.Length
      invariant k <= stop
      invariant world[..] == Meshes(w0, table, k)
    {
      r := MeshNext(world, table, w0, k);
      MeshStopAt(w0, k);
      if r.Fail? {
        return;
      }
      k := k + 1;
    }
    r := Pass;
  }

  /** One iteration of the mesh loop: CreateMesh on chunk `k` of the arena reached so far. */
  method MeshNext(world: array<Chunk>, table: MaterialTable, ghost w0: seq<Chunk>, k: nat) returns (r: Outcome<ChunkError>)
    requires WorldOk(w0) && Stocked(w0, table) && ValidTable(table) && k < |w0|
    requires world[..] == Meshes(w0, table, k)
    modifies world
    ensures r == Pass <==> w0[k].mesh.None?
    ensures r.Fail? ==> r.error == MeshExists && world[..] == old(world[..])
    ensures r == Pass ==> world[..] == Meshes(w0, table, k + 1)
  {
    MeshesStep(w0, table, k);
    assert world[k] == w0[k];
    r := CreateMesh(world, k);
  }
}
