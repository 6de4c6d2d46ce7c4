// Index bookkeeping of the procedural mesh class `myGeom` and of the grid
// mesh builder: fan triangulation, splitting shared vertices for hard edges,
// the vertex-to-polygon index, material de-duplication and the polygon
// indices of the square grid.

module SurfaceMesh {
  import opened Wrappers

  /** A vertex: its coordinates (the source uses the first three). */
  type Vertex = seq<real>

  /** A polygon: the indices of its corner vertices, in order. */
  type Polygon = seq<int>

  /** Every corner of the polygon indexes one of `n` vertices. */
  predicate PolygonBelow(n: int, poly: Polygon)
  {
    forall k :: 0 <= k < |poly| ==> 0 <= poly[k] < n
  }

  /** Every corner of every polygon indexes one of `n` vertices. */
  predicate IndicesBelow(n: int, polys: seq<Polygon>)
  {
    forall p :: 0 <= p < |polys| ==> PolygonBelow(n, polys[p])
  }

  lemma IndicesBelowAppend(n: int, a: seq<Polygon>, b: seq<Polygon>)
    requires IndicesBelow(n, a) && IndicesBelow(n, b)
    ensures IndicesBelow(n, a + b)
  {
    forall p | 0 <= p < |a + b|
      ensures PolygonBelow(n, (a + b)[p])
    {
      if p < |a| {
        assert (a + b)[p] == a[p];
      } else {
        assert (a + b)[p] == b[p - |a|];
      }
    }
  }

  // ---------------------------------------------------------------- fan triangulation

  /**
   * The fan of a polygon: one triangle per corner after the second, each made
   * of the first corner and two consecutive ones; none below three corners.
   */
  function Fan(poly: Polygon): seq<Polygon>
  {
    if |poly| < 3 then []
    else Fan(poly[..|poly| - 1]) + [[poly[0], poly[|poly| - 2], poly[|poly| - 1]]]
  }

  /** A polygon of `n >= 3` corners fans into `n - 2` triangles, triangle `k` being corners 0, `k + 1` and `k + 2`. */
  lemma {:induction false} FanShape(poly: Polygon)
    ensures |Fan(poly)| == if |poly| < 3 then 0 else |poly| - 2
    ensures forall k :: 0 <= k < |Fan(poly)| ==> Fan(poly)[k] == [poly[0], poly[k + 1], poly[k + 2]]
  {
    if |poly| >= 3 {
      var init := poly[..|poly| - 1];
      FanShape(init);
      forall k | 0 <= k < |Fan(poly)|
        ensures Fan(poly)[k] == [poly[0], poly[k + 1], poly[k + 2]]
      {
        if k < |Fan(init)| {
          assert Fan(poly)[k] == Fan(init)[k];
        }
      }
    }
  }

  /** The fan uses only the polygon's corners, and every corner of a polygon with at least three is used. */
  lemma FanCoversPolygon(poly: Polygon)
    ensures forall k, j :: 0 <= k < |Fan(poly)| && 0 <= j < |Fan(poly)[k]| ==> Fan(poly)[k][j] in poly
    ensures |poly| >= 3 ==> forall i :: 0 <= i < |poly| ==> exists k :: 0 <= k < |Fan(poly)| && poly[i] in Fan(poly)[k]
  {
    FanShape(poly);
    var fan := Fan(poly);
    if |poly| >= 3 {
      forall i | 0 <= i < |poly|
        ensures exists k :: 0 <= k < |fan| && poly[i] in fan[k]
      {
        var k := if i == 0 then 0 else if i <= |poly| - 2 then i - 1 else i - 2;
        assert poly[i] in fan[k];
      }
    }
  }

  // ---------------------------------------------------------------- splitting vertices

  /** The number of polygon corners. */
  function Corners(polys: seq<Polygon>): nat
  {
    if polys == [] then 0 else Corners(polys[..|polys| - 1]) + |polys[|polys| - 1]|
  }

  /** The corners of a prefix and of the polygon after it fit within all the corners. */
  lemma {:induction false} CornersPrefix(polys: seq<Polygon>, p: nat)
    requires p < |polys|
    ensures Corners(polys[..p]) + |polys[p]| <= Corners(polys)
  {
    var init := polys[..|polys| - 1];
    if p < |polys| - 1 {
      CornersPrefix(init, p);
      assert init[..p] == polys[..p];
    } else {
      assert init == polys[..p];
    }
  }

  /** `n` consecutive indices from `start`. */
  function Span(start: int, n: nat): (r: seq<int>)
    ensures |r| == n
  {
    if n == 0 then [] else Span(start, n - 1) + [start + n - 1]
  }

  /** Entry `k` of a span is `start + k`. */
  lemma {:induction false} SpanAt(start: int, n: nat)
    ensures forall k :: 0 <= k < n ==> Span(start, n)[k] == start + k
  {
    if n > 0 {
      SpanAt(start, n - 1);
      forall k | 0 <= k < n - 1
        ensures Span(start, n)[k] == start + k
      {
        assert Span(start, n)[k] == Span(start, n - 1)[k];
      }
    }
  }

  /** The vertices a polygon's corners index, in corner order. */
  function Pick(verts: seq<Vertex>, poly: Polygon): (r: seq<Vertex>)
    requires PolygonBelow(|verts|, poly)
    ensures |r| == |poly|
  {
    if poly == [] then [] else Pick(verts, poly[..|poly| - 1]) + [verts[poly[|poly| - 1]]]
  }

  /** Entry `k` of the picked vertices is the vertex corner `k` indexes. */
  lemma {:induction false} PickAt(verts: seq<Vertex>, poly: Polygon)
    requires PolygonBelow(|verts|, poly)
    ensures forall k :: 0 <= k < |poly| ==> Pick(verts, poly)[k] == verts[poly[k]]
  {
    if poly != [] {
      var init := poly[..|poly| - 1];
      PickAt(verts, init);
      forall k | 0 <= k < |poly| - 1
        ensures Pick(verts, poly)[k] == verts[poly[k]]
      {
        assert Pick(verts, poly)[k] == Pick(verts, init)[k];
      }
    }
  }

  /** The vertex list after splitting: one copy of the indexed vertex per corner, polygon by polygon. */
  function Gather(verts: seq<Vertex>, polys: seq<Polygon>): (r: seq<Vertex>)
    requires IndicesBelow(|verts|, polys)
    ensures |r| == Corners(polys)
  {
    if polys == [] then []
    else Gather(verts, polys[..|polys| - 1]) + Pick(verts, polys[|polys| - 1])
  }

  /** The polygons after splitting: each polygon's corners numbered on from the corners before it. */
  function Renumber(polys: seq<Polygon>): (r: seq<Polygon>)
    ensures |r| == |polys|
  {
    if polys == [] then []
    else
      var init := polys[..|polys| - 1];
      Renumber(init) + [Span(Corners(init), |polys[|polys| - 1]|)]
  }

  /** Polygon `p` after splitting keeps its length and numbers its corners on from the corners before it. */
  lemma {:induction false} RenumberAt(polys: seq<Polygon>, p: nat)
    requires p < |polys|
    ensures Renumber(polys)[p] == Span(Corners(polys[..p]), |polys[p]|)
  {
    var init := polys[..|polys| - 1];
    if p < |polys| - 1 {
      RenumberAt(init, p);
      assert init[..p] == polys[..p];
      assert Renumber(polys)[p] == Renumber(init)[p];
    } else {
      assert init == polys[..p];
    }
  }

  /** Corner `k` of polygon `p` is, after splitting, a copy of the vertex it indexed before. */
  lemma {:induction false} GatherAt(verts: seq<Vertex>, polys: seq<Polygon>, p: nat, k: nat)
    requires IndicesBelow(|verts|, polys) && p < |polys| && k < |polys[p]|
    ensures Corners(polys[..p]) + k < |Gather(verts, polys)|
    ensures Gather(verts, polys)[Corners(polys[..p]) + k] == verts[polys[p][k]]
  {
    CornersPrefix(polys, p);
    var init := polys[..|polys| - 1];
    PrefixBelow(|verts|, polys, |polys| - 1);
    var front := Gather(verts, init);
    assert Gather(verts, polys) == front + Pick(verts, polys[|polys| - 1]);
    if p < |polys| - 1 {
      GatherAt(verts, init, p, k);
      assert init[..p] == polys[..p];
      assert Corners(polys[..p]) + k < |front|;
    } else {
      assert init == polys[..p] && |front| == Corners(polys[..p]);
      PickAt(verts, polys[p]);
      assert Pick(verts, polys[p])[k] == verts[polys[p][k]];
    }
  }

  /** The corners of the polygons, concatenated. */
  function Flatten(polys: seq<Polygon>): seq<int>
  {
    if polys == [] then [] else Flatten(polys[..|polys| - 1]) + polys[|polys| - 1]
  }

  /** Two adjacent spans make one. */
  lemma SpanJoin(start: int, a: nat, b: nat)
    ensures Span(start, a) + Span(start + a, b) == Span(start, a + b)
  {
    SpanAt(start, a);
    SpanAt(start + a, b);
    SpanAt(start, a + b);
  }

  /** Read polygon by polygon, the split polygons index 0, 1, 2, ... up to the number of corners. */
  lemma {:induction false} RenumberCounts(polys: seq<Polygon>)
    ensures Flatten(Renumber(polys)) == Span(0, Corners(polys))
  {
    if polys != [] {
      var init := polys[..|polys| - 1];
      RenumberCounts(init);
      var r := Renumber(polys);
      assert r[..|r| - 1] == Renumber(init);
      SpanJoin(0, Corners(init), |polys[|polys| - 1]|);
      assert Flatten(r) == Span(0, Corners(init)) + Span(Corners(init), |polys[|polys| - 1]|);
    }
  }

  /** A prefix of well-indexed polygons is well indexed. */
  lemma PrefixBelow(n: int, polys: seq<Polygon>, p: nat)
    requires IndicesBelow(n, polys) && p <= |polys|
    ensures IndicesBelow(n, polys[..p])
  {
    forall q | 0 <= q < p
      ensures PolygonBelow(n, polys[..p][q])
    {
      assert polys[..p][q] == polys[q];
    }
  }

  /** Splitting one more polygon appends copies of its vertices. */
  lemma GatherStep(verts: seq<Vertex>, polys: seq<Polygon>, p: nat)
    requires IndicesBelow(|verts|, polys) && p < |polys|
    ensures IndicesBelow(|verts|, polys[..p]) && IndicesBelow(|verts|, polys[..p + 1])
    ensures Gather(verts, polys[..p + 1]) == Gather(verts, polys[..p]) + Pick(verts, polys[p])
  {
    PrefixBelow(|verts|, polys, p);
    PrefixBelow(|verts|, polys, p + 1);
    var next := polys[..p + 1];
    assert next[..|next| - 1] == polys[..p] && next[|next| - 1] == polys[p];
  }

  /** Splitting one more polygon appends its corners, numbered on from the corners before it. */
  lemma RenumberStep(polys: seq<Polygon>, p: nat)
    requires p < |polys|
    ensures Renumber(polys[..p + 1]) == Renumber(polys[..p]) + [Span(Corners(polys[..p]), |polys[p]|)]
  {
    var next := polys[..p + 1];
    assert next[..|next| - 1] == polys[..p] && next[|next| - 1] == polys[p];
  }

  /**
   * Splitting keeps the number of polygons and each polygon's length, makes
   * as many vertices as corners, and leaves every index in range.
   */
  lemma SplitShape(verts: seq<Vertex>, polys: seq<Polygon>)
    requires IndicesBelow(|verts|, polys)
    ensures |Renumber(polys)| == |polys| && |Gather(verts, polys)| == Corners(polys)
    ensures forall p :: 0 <= p < |polys| ==> |Renumber(polys)[p]| == |polys[p]|
    ensures IndicesBelow(|Gather(verts, polys)|, Renumber(polys))
  {
    forall p | 0 <= p < |polys|
      ensures |Renumber(polys)[p]| == |polys[p]| && PolygonBelow(Corners(polys), Renumber(polys)[p])
    {
      RenumberAt(polys, p);
      CornersPrefix(polys, p);
      SpanAt(Corners(polys[..p]), |polys[p]|);
    }
  }

  /** Corner `k` of polygon `p` is numbered, after splitting, on from the corners of the polygons before it. */
  lemma RenumberEntry(polys: seq<Polygon>, p: nat, k: nat)
    requires p < |polys| && k < |polys[p]|
    ensures |Renumber(polys)[p]| == |polys[p]| && Renumber(polys)[p][k] == Corners(polys[..p]) + k
  {
    RenumberAt(polys, p);
    SpanAt(Corners(polys[..p]), |polys[p]|);
  }

  /** Corner `k` of polygon `p`, after splitting, indexes a copy of the vertex it indexed before. */
  lemma SplitCopies(verts: seq<Vertex>, polys: seq<Polygon>, p: nat, k: nat)
    requires IndicesBelow(|verts|, polys) && p < |polys| && k < |polys[p]|
    ensures k < |Renumber(polys)[p]| && 0 <= Renumber(polys)[p][k] < |Gather(verts, polys)|
    ensures Gather(verts, polys)[Renumber(polys)[p][k]] == verts[polys[p][k]]
  {
    RenumberEntry(polys, p, k);
    GatherAt(verts, polys, p, k);
  }

  // ---------------------------------------------------------------- the vertex-to-polygon index

  /** The polygons that use vertex `v`, ascending. */
  function PolysOf(v: int, polys: seq<Polygon>): seq<nat>
  {
    if polys == [] then []
    else PolysOf(v, polys[..|polys| - 1]) + (if v in polys[|polys| - 1] then [|polys| - 1] else [])
  }

  /** Polygon `p` is listed for vertex `v` exactly when `v` is a corner of `p`, and the list strictly ascends. */
  lemma {:induction false} PolysOfMembership(v: int, polys: seq<Polygon>)
    ensures forall p :: p in PolysOf(v, polys) <==> 0 <= p < |polys| && v in polys[p]
    ensures forall i, j :: 0 <= i < j < |PolysOf(v, polys)| ==> PolysOf(v, polys)[i] < PolysOf(v, polys)[j]
  {
    if polys != [] {
      var init := polys[..|polys| - 1];
      PolysOfMembership(v, init);
      forall p
        ensures p in PolysOf(v, polys) <==> 0 <= p < |polys| && v in polys[p]
      {
        if 0 <= p < |init| {
          assert init[p] == polys[p];
        }
      }
      var r := PolysOf(v, polys);
      var s := PolysOf(v, init);
      forall i, j | 0 <= i < j < |r|
        ensures r[i] < r[j]
      {
        if j < |s| {
          assert r[i] == s[i] && r[j] == s[j];
        } else {
          assert r[i] == s[i] && s[i] in s;
        }
      }
    }
  }

  /** The index of every vertex: the polygons that use it. */
  function VertPolys(n: nat, polys: seq<Polygon>): (r: seq<seq<nat>>)
    ensures |r| == n
  {
    seq(n, v => PolysOf(v, polys))
  }

  // ---------------------------------------------------------------- material names

  /** The distinct names, each where it first occurs. */
  function Distinct(names: seq<string>): seq<string>
  {
    if names == [] then []
    else
      var d := Distinct(names[..|names| - 1]);
      if names[|names| - 1] in d then d else d + [names[|names| - 1]]
  }

  /** The position of the first occurrence of a name. */
  function IndexOf(names: seq<string>, x: string): (r: nat)
    requires x in names
    ensures r < |names| && names[r] == x && x !in names[..r]
  {
    if names[0] == x then 0 else IndexOf(names[1..], x) + 1
  }

  /** A name occurring before the end keeps its first position when the list grows by one. */
  lemma {:induction false} IndexOfPrefix(names: seq<string>, x: string)
    requires |names| > 0 && x in names[..|names| - 1]
    ensures IndexOf(names, x) == IndexOf(names[..|names| - 1], x)
  {
    if names[0] != x {
      var init := names[..|names| - 1];
      assert names[1..][..|names[1..]| - 1] == init[1..];
      IndexOfPrefix(names[1..], x);
    }
  }

  /** The distinct names are the names, each once, in the order of their first occurrences. */
  lemma {:induction false} DistinctNames(names: seq<string>)
    ensures forall x :: x in Distinct(names) <==> x in names
    ensures forall i, j :: 0 <= i < j < |Distinct(names)| ==> Distinct(names)[i] != Distinct(names)[j]
    ensures forall i, j :: 0 <= i < j < |Distinct(names)| ==>
              IndexOf(names, Distinct(names)[i]) < IndexOf(names, Distinct(names)[j])
  {
    if names != [] {
      var init := names[..|names| - 1];
      var last := names[|names| - 1];
      DistinctNames(init);
      assert names == init + [last];
      var d := Distinct(init);
      var r := Distinct(names);
      forall i | 0 <= i < |d|
        ensures IndexOf(names, d[i]) == IndexOf(init, d[i])
      {
        IndexOfPrefix(names, d[i]);
      }
      if last !in d {
        assert IndexOf(names, last) == |names| - 1;
        forall i, j | 0 <= i < j < |r|
          ensures r[i] != r[j] && IndexOf(names, r[i]) < IndexOf(names, r[j])
        {
          if j == |d| {
            assert r[i] == d[i] && r[j] == last;
          } else {
            assert r[i] == d[i] && r[j] == d[j];
          }
        }
      }
    }
  }

  // ---------------------------------------------------------------- the example box

  /** The corners of the cube of half-side `scale` around `center`. */
  function BoxVerts(center: seq<real>, scale: real): (r: seq<Vertex>)
    requires |center| == 3
    ensures |r| == 8
  {
    var minX := center[0] - scale;
    var maxX := center[0] + scale;
    var minY := center[1] - scale;
    var maxY := center[1] + scale;
    var minZ := center[2] - scale;
    var maxZ := center[2] + scale;
    [[minX, minY, minZ], [minX, maxY, minZ], [minX, maxY, maxZ], [minX, minY, maxZ],
     [maxX, minY, minZ], [maxX, maxY, minZ], [maxX, maxY, maxZ], [maxX, minY, maxZ]]
  }

  /** The six quadrilateral faces of the example box. */
  const BoxPolys: seq<Polygon> := [[3, 2, 1, 0], [4, 5, 6, 7], [5, 4, 0, 1], [6, 5, 1, 2], [7, 6, 2, 3], [4, 7, 3, 0]]

  /** The example box's material names, one per face. */
  const BoxMats: seq<string> := ["right", "left", "bottom", "back", "top", "front"]

  /** A vertex moved by `center` and then scaled. */
  function Place(v: Vertex, center: seq<real>, scale: real): (r: Vertex)
    requires |v| >= 3 && |center| == 3
  {
    [(v[0] + center[0]) * scale, (v[1] + center[1]) * scale, (v[2] + center[2]) * scale]
  }

  /** Every vertex moved by `center` and then scaled. */
  function PlaceAll(verts: seq<Vertex>, center: seq<real>, scale: real): (r: seq<Vertex>)
    requires |center| == 3 && forall i :: 0 <= i < |verts| ==> |verts[i]| >= 3
    ensures |r| == |verts| && forall i :: 0 <= i < |verts| ==> r[i] == Place(verts[i], center, scale)
  {
    if verts == [] then []
    else PlaceAll(verts[..|verts| - 1], center, scale) + [Place(verts[|verts| - 1], center, scale)]
  }

  /** Without both vertices and polygons the geometry is the example box. */
  predicate IsExample(verts: seq<Vertex>, polys: seq<Polygon>)
  {
    verts == [] || polys == []
  }

  /** The vertices the geometry starts from: the example box, or the given ones placed. */
  function StartVerts(center: seq<real>, scale: real, verts: seq<Vertex>, polys: seq<Polygon>): seq<Vertex>
    requires |center| == 3 && forall i :: 0 <= i < |verts| ==> |verts[i]| >= 3
  {
    if IsExample(verts, polys) then BoxVerts(center, scale)
    else PlaceAll(verts, center, scale)
  }

  /** The polygons the geometry starts from. */
  function StartPolys(verts: seq<Vertex>, polys: seq<Polygon>): seq<Polygon>
  {
    if IsExample(verts, polys) then BoxPolys else polys
  }

  /** The material names: the given ones, else the box's names or one "Preview" per polygon. */
  function StartMats(verts: seq<Vertex>, polys: seq<Polygon>, mats: seq<string>): seq<string>
  {
    if mats != [] then mats
    else if IsExample(verts, polys) then BoxMats
    else seq(|polys|, _ => "Preview")
  }

  /** Splitting keeps the normals only while there is one per vertex. */
  function KeptNorms(norms: Option<seq<Vertex>>, vertexCount: nat): Option<seq<Vertex>>
  {
    if norms.Some? && |norms.value| != vertexCount then None else norms
  }

  /** A procedural geometry: vertices, polygons, optional normals, materials and the derived indices. */
  class MyGeom {
    var example: bool
    var smooth: bool
    var verts: seq<Vertex>
    var polys: seq<Polygon>
    var vnorms: Option<seq<Vertex>>
    var mats: seq<string>
    var colors: seq<string>
    var vpolys: seq<seq<nat>>

    /**
     * Takes the given vertices (moved by `center` and scaled) and polygons, or
     * the example box when either is missing; splits the vertices unless the
     * geometry is smooth; and collects the distinct material names.
     */
    constructor(center: seq<real>, scale: real, smooth: bool, verts: seq<Vertex>, polys: seq<Polygon>,
                mats: seq<string>, norms: seq<Vertex>)
      requires |center| == 3 && forall i :: 0 <= i < |verts| ==> |verts[i]| >= 3
      requires !smooth ==> IndicesBelow(|StartVerts(center, scale, verts, polys)|, StartPolys(verts, polys))
      ensures this.example == IsExample(verts, polys) && this.smooth == smooth
      ensures this.mats == StartMats(verts, polys, mats) && colors == Distinct(this.mats)
      ensures smooth ==> this.verts == StartVerts(center, scale, verts, polys) && this.polys == StartPolys(verts, polys)
      ensures smooth ==> vnorms == (if norms != [] then Some(norms) else None)
      ensures !smooth ==> this.verts == Gather(StartVerts(center, scale, verts, polys), StartPolys(verts, polys))
      ensures !smooth ==> this.polys == Renumber(StartPolys(verts, polys))
      ensures !smooth ==> vnorms == KeptNorms(if norms != [] then Some(norms) else None, |this.verts|)
      ensures vpolys == []
    {
      var startVerts, startPolys := Start(center, scale, verts, polys);
      var startNorms: Option<seq<Vertex>> := if norms != [] then Some(norms) else None;
      example := IsExample(verts, polys);
      this.smooth := smooth;
      this.verts := startVerts;
      this.polys := startPolys;
      vnorms := startNorms;
      this.mats := StartMats(verts, polys, mats);
      colors := [];
      vpolys := [];
      new;
      if !smooth {
        SplitVerts();
        assert this.verts == Gather(startVerts, startPolys) && this.polys == Renumber(startPolys);
      }
      CollectColors();
    }

    /** The vertices and polygons a new geometry starts from: the example box, or the given ones placed. */
    static method Start(center: seq<real>, scale: real, verts: seq<Vertex>, polys: seq<Polygon>)
      returns (startVerts: seq<Vertex>, startPolys: seq<Polygon>)
      requires |center| == 3 && forall i :: 0 <= i < |verts| ==> |verts[i]| >= 3
      ensures startVerts == StartVerts(center, scale, verts, polys) && startPolys == StartPolys(verts, polys)
    {
      var placed := PlaceVerts(verts, center, scale);
      startVerts := if IsExample(verts, polys) then BoxVerts(center, scale) else placed;
      startPolys := StartPolys(verts, polys);
    }

    /** Copies the vertices, each moved by `center` and then scaled. */
    static method PlaceVerts(verts: seq<Vertex>, center: seq<real>, scale: real) returns (placed: seq<Vertex>)
      requires |center| == 3 && forall i :: 0 <= i < |verts| ==> |verts[i]| >= 3
      ensures placed == PlaceAll(verts, center, scale)
    {
      placed := [];
      var vi := 0;
      while vi < |verts|
        invariant 0 <= vi <= |verts| && placed == PlaceAll(verts[..vi], center, scale)
      {
        assert verts[..vi + 1][..vi] == verts[..vi];
        placed := placed + [Place(verts[vi], center, scale)];
        vi := vi + 1;
      }
      assert verts[..vi] == verts;
    }

    /** Splits every polygon's corners into vertices of their own, for hard edges. */
    method SplitVerts()
      requires IndicesBelow(|verts|, polys)
      modifies this`verts, this`polys, this`vnorms
      ensures verts == Gather(old(verts), old(polys)) && polys == Renumber(old(polys))
      ensures vnorms == KeptNorms(old(vnorms), |verts|)
    {
      var source := verts;
      var shape := polys;
      verts := [];
      polys := seq(|shape|, _ => []);
      var p := 0;
      PrefixBelow(|source|, shape, 0);
      while p < |shape|
        invariant 0 <= p <= |shape| && |polys| == |shape| && vnorms == old(vnorms)
        invariant IndicesBelow(|source|, shape[..p])
        invariant verts == Gather(source, shape[..p])
        invariant polys[..p] == Renumber(shape[..p])
        invariant forall q :: p <= q < |polys| ==> polys[q] == []
      {
        GatherStep(source, shape, p);
        RenumberStep(shape, p);
        ghost var before := polys;
        SplitPolygon(source, shape[p], p);
        assert polys[..p + 1] == before[..p] + [polys[p]];
        p := p + 1;
      }
      assert shape[..p] == shape && polys[..p] == polys;
      if vnorms.Some? && |vnorms.value| != |verts| {
        vnorms := None;
      }
    }

    /** Appends a copy of the vertex at each corner of `poly` and the new vertices' indices to polygon `index`. */
    method SplitPolygon(source: seq<Vertex>, poly: Polygon, index: nat)
      requires index < |polys| && polys[index] == [] && PolygonBelow(|source|, poly)
      modifies this`verts, this`polys
      ensures verts == old(verts) + Pick(source, poly)
      ensures polys == old(polys)[index := Span(|old(verts)|, |poly|)]
    {
      var k := 0;
      assert old(polys)[index := Span(|old(verts)|, 0)] == old(polys);
      while k < |poly|
        invariant 0 <= k <= |poly|
        invariant verts == old(verts) + Pick(source, poly[..k])
        invariant polys == old(polys)[index := Span(|old(verts)|, k)]
      {
        assert poly[..k + 1][..k] == poly[..k];
        assert Span(|old(verts)|, k + 1) == Span(|old(verts)|, k) + [|old(verts)| + k];
        verts := verts + [source[poly[k]]];
        polys := polys[index := polys[index] + [|verts| - 1]];
        k := k + 1;
      }
      assert poly[..k] == poly;
    }

    /** Collects each material name once, in the order of first use. */
    method CollectColors()
      modifies this`colors
      ensures colors == Distinct(mats)
    {
      colors := [];
      var i := 0;
      while i < |mats|
        invariant 0 <= i <= |mats| && colors == Distinct(mats[..i])
      {
        assert mats[..i + 1][..i] == mats[..i];
        if mats[i] !in colors {
          colors := colors + [mats[i]];
        }
        i := i + 1;
      }
      assert mats[..i] == mats;
    }

    /** Splits a polygon into the triangles of its fan. */
    static method GetFanning(poly: Polygon) returns (triangulated: seq<Polygon>)
      ensures triangulated == Fan(poly)
    {
      triangulated := [];
      var index := 1;
      while index < |poly| - 1
        invariant 1 <= index
        invariant |poly| >= 2 ==> index <= |poly| - 1 && triangulated == Fan(poly[..index + 1])
        invariant |poly| < 2 ==> triangulated == []
      {
        var next := poly[..index + 2];
        assert next[..|next| - 1] == poly[..index + 1];
        triangulated := triangulated + [[poly[0], poly[index], poly[index + 1]]];
        index := index + 1;
      }
      if |poly| >= 2 {
        assert poly[..index + 1] == poly;
      }
    }

    /** Lists, for every vertex, the polygons that use it, each once and in polygon order. */
    method GetVertpolys()
      requires IndicesBelow(|verts|, polys)
      modifies this`vpolys
      ensures vpolys == VertPolys(|verts|, polys)
    {
      vpolys := seq(|verts|, _ => []);
      var p := 0;
      while p < |polys|
        invariant 0 <= p <= |polys|
        invariant vpolys == VertPolys(|verts|, polys[..p])
      {
        forall v | 0 <= v < |verts|
          ensures p !in vpolys[v]
        {
          PolysOfMembership(v, polys[..p]);
        }
        AddPolygonRefs(p);
        assert polys[..p + 1][..p] == polys[..p];
        p := p + 1;
      }
      assert polys[..p] == polys;
    }

    /** Adds polygon `p` to the list of each of its corners that does not list it yet. */
    method AddPolygonRefs(p: nat)
      requires p < |polys| && PolygonBelow(|verts|, polys[p]) && |vpolys| == |verts|
      requires forall v :: 0 <= v < |vpolys| ==> p !in vpolys[v]
      modifies this`vpolys
      ensures |vpolys| == |old(vpolys)|
      ensures forall v :: 0 <= v < |vpolys| ==>
                vpolys[v] == old(vpolys)[v] + (if v in polys[p] then [p] else [])
    {
      var poly := polys[p];
      var k := 0;
      while k < |poly|
        invariant 0 <= k <= |poly| && |vpolys| == |old(vpolys)|
        invariant forall v :: 0 <= v < |vpolys| ==>
                    vpolys[v] == old(vpolys)[v] + (if v in poly[..k] then [p] else [])
      {
        var v := poly[k];
        assert poly[..k + 1] == poly[..k] + [v];
        if p !in vpolys[v] {
          vpolys := vpolys[v := vpolys[v] + [p]];
        }
        k := k + 1;
      }
      assert poly[..k] == poly;
    }
  }

  // ---------------------------------------------------------------- the grid mesh

  /** The two triangles of grid cell (`x`, `y`) in a grid `width` cells wide. */
  function Cell(width: int, y: int, x: int): seq<Polygon>
  {
    var v := (width + 1) * y + x;
    [[v, v + 1, v + width + 1], [v + 1, v + width + 2, v + width + 1]]
  }

  /** The triangles of the first `n` cells of row `y`. */
  function Row(width: int, y: int, n: nat): (r: seq<Polygon>)
    ensures |r| == 2 * n
  {
    if n == 0 then [] else Row(width, y, n - 1) + Cell(width, y, n - 1)
  }

  /** The triangles of the first `n` rows. */
  function Rows(width: nat, n: nat): seq<Polygon>
  {
    if n == 0 then [] else Rows(width, n - 1) + Row(width, n - 1, width)
  }

  /** The first `n` rows hold two triangles per cell. */
  lemma {:induction false} RowsLength(width: nat, n: nat)
    ensures |Rows(width, n)| == 2 * (width * n)
  {
    if n > 0 {
      RowsLength(width, n - 1);
      assert width * n == width * (n - 1) + width;
    }
  }

  /** The triangles of a grid `width` cells on each side, row by row. */
  function Grid(width: nat): seq<Polygon>
  {
    Rows(width, width)
  }

  /** A cell's triangles index the grid's `(width + 1)` squared vertices. */
  lemma CellInRange(width: nat, y: nat, x: nat)
    requires y < width && x < width
    ensures IndicesBelow((width + 1) * (width + 1), Cell(width, y, x))
  {
    CellCornerBound(width, y, x);
  }

  /** The lowest and highest corners of a cell lie within the grid's `(width + 1)^2` vertices. */
  lemma CellCornerBound(width: nat, y: nat, x: nat)
    requires y < width && x < width
    ensures 0 <= (width + 1) * y + x && (width + 1) * y + x + width + 2 < (width + 1) * (width + 1)
  {
    MulMonotonic(width + 1, y, width - 1);
    assert (width + 1) * (width - 1) + 2 * width + 2 == (width + 1) * (width + 1);
  }

  lemma {:induction false} RowInRange(width: nat, y: nat, n: nat)
    requires y < width && n <= width
    ensures IndicesBelow((width + 1) * (width + 1), Row(width, y, n))
  {
    if n > 0 {
      RowInRange(width, y, n - 1);
      CellInRange(width, y, n - 1);
      IndicesBelowAppend((width + 1) * (width + 1), Row(width, y, n - 1), Cell(width, y, n - 1));
    }
  }

  lemma {:induction false} RowsInRange(width: nat, n: nat)
    requires n <= width
    ensures IndicesBelow((width + 1) * (width + 1), Rows(width, n))
  {
    if n > 0 {
      RowsInRange(width, n - 1);
      RowInRange(width, n - 1, width);
      IndicesBelowAppend((width + 1) * (width + 1), Rows(width, n - 1), Row(width, n - 1, width));
    }
  }

  /** The two triangles of cell `x` sit at positions `2 x` and `2 x + 1` of their row. */
  lemma {:induction false} RowCellAt(width: int, y: int, n: nat, x: nat)
    requires x < n
    ensures Row(width, y, n)[2 * x] == Cell(width, y, x)[0]
    ensures Row(width, y, n)[2 * x + 1] == Cell(width, y, x)[1]
  {
    if x < n - 1 {
      RowCellAt(width, y, n - 1, x);
    }
  }

  /** Multiplying by a natural number keeps the order. */
  lemma MulMonotonic(a: nat, b: nat, c: nat)
    requires b <= c
    ensures a * b <= a * c
  {
  }

  /** The two triangles of cell (`x`, `y`) sit at positions `2 (width y + x)` and one after. */
  lemma {:induction false} RowsCellAt(width: nat, n: nat, y: nat, x: nat)
    requires y < n && x < width
    ensures 2 * (width * y + x) + 1 < |Rows(width, n)|
    ensures Rows(width, n)[2 * (width * y + x)] == Cell(width, y, x)[0]
    ensures Rows(width, n)[2 * (width * y + x) + 1] == Cell(width, y, x)[1]
  {
    RowsLength(width, y);
    RowsRowAt(width, n, y, 2 * x);
    RowsRowAt(width, n, y, 2 * x + 1);
    RowCellAt(width, y, width, x);
  }

  /** Entry `j` of row `y` sits at position `j` after the rows before it. */
  lemma {:induction false} RowsRowAt(width: nat, n: nat, y: nat, j: nat)
    requires y < n && j < 2 * width
    ensures |Rows(width, y)| + j < |Rows(width, n)|
    ensures Rows(width, n)[|Rows(width, y)| + j] == Row(width, y, width)[j]
  {
    var before := Rows(width, n - 1);
    assert Rows(width, n) == before + Row(width, n - 1, width);
    if y < n - 1 {
      RowsRowAt(width, n - 1, y, j);
    }
  }

  /** A grid `width` cells on each side has `2 width^2` triangles, all indexing its `(width + 1)^2` vertices. */
  lemma GridShape(width: nat)
    ensures |Grid(width)| == 2 * width * width
    ensures IndicesBelow((width + 1) * (width + 1), Grid(width))
  {
    RowsLength(width, width);
    RowsInRange(width, width);
  }

  /**
   * Cell (`x`, `y`) of the grid, with lower-left vertex `v = (width + 1) y + x`,
   * contributes `[v, v + 1, v + width + 1]` and `[v + 1, v + width + 2, v + width + 1]`
   * at positions `2 (width y + x)` and one after.
   */
  lemma GridCellAt(width: nat, y: nat, x: nat)
    requires y < width && x < width
    ensures 2 * (width * y + x) + 1 < |Grid(width)|
    ensures Grid(width)[2 * (width * y + x)] == Cell(width, y, x)[0]
    ensures Grid(width)[2 * (width * y + x) + 1] == Cell(width, y, x)[1]
  {
    RowsCellAt(width, width, y, x);
  }

  /** The polygon indices of the grid mesh, two triangles per cell, row by row. */
  method CreateMeshPolys(width: nat) returns (polys: seq<Polygon>)
    ensures polys == Grid(width)
  {
    polys := [];
    var y := 0;
    while y < width
      invariant 0 <= y <= width && polys == Rows(width, y)
    {
      var x := 0;
      while x < width
        invariant 0 <= x <= width && polys == Rows(width, y) + Row(width, y, x)
      {
        ghost var before := polys;
        var v := (width + 1) * y + x;
        polys := polys + [[v, v + 1, v + width + 1]];
        polys := polys + [[v + 1, v + width + 2, v + width + 1]];
        assert polys == before + Cell(width, y, x);
        x := x + 1;
      }
      y := y + 1;
    }
  }
}
