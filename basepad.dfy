/**
 * Pad shapes and the readout-pad array of the CAT-M detector: a template
 * outline is rotated about x, then y, then z, translated to a pad centre
 * and appended to the array together with its id, its vertex mean and a
 * zero charge.
 */
module BasePad {
  import opened Wrappers
  import opened Numerics

  /** A template pad outline: a reference point and its ordered vertices. */
  class BasePadShape {
    var center: Vec3
    var polygon: seq<Vec3>

    /** A new shape sits at the origin with no vertices. */
    constructor ()
      ensures center == Origin && polygon == []
    {
      center := Origin;
      polygon := [];
    }

    method SetCenter(c: Vec3)
      modifies this
      ensures center == c && polygon == old(polygon)
    {
      center := c;
    }

    /** Vertices are kept in the order they were added. */
    method AddPolygon(p: Vec3)
      modifies this
      ensures polygon == old(polygon) + [p] && center == old(center)
    {
      polygon := polygon + [p];
    }

    /** The stored vertex list itself (the caller shares it, no copy is made). */
    function GetPolygon(): (r: seq<Vec3>)
      reads this
      ensures r == polygon
    {
      polygon
    }

    function GetCenter(): (r: Vec3)
      reads this
      ensures r == center
    {
      center
    }
  }

  /**
   * The planar rotation each axis rotation applies to two coordinates
   * `(u, w)`, given the cosine `c` and sine `s` of the angle: the first
   * result is `u*c - w*s`, the second `u*s + w*c`. The rotation about y
   * turns `(z, x)`, so its `x*cos + z*sin` and `-x*sin + z*cos` are the
   * second and first results.
   */
  function TurnFirst(u: real, w: real, c: real, s: real): real
  {
    u * c - w * s
  }

  function TurnSecond(u: real, w: real, c: real, s: real): real
  {
    u * s + w * c
  }

  /** Rotation about the x axis by `degree` degrees. */
  function RotateX(m: Math, p: Vec3, degree: real): (r: Vec3)
    ensures r.x == p.x
    ensures Sound(m) && degree == 0.0 ==> r == p
  {
    var t := DegToRad * degree;
    Vec3(p.x, TurnFirst(p.y, p.z, m.cos(t), m.sin(t)), TurnSecond(p.y, p.z, m.cos(t), m.sin(t)))
  }

  /** Rotation about the y axis by `degree` degrees. */
  function RotateY(m: Math, p: Vec3, degree: real): (r: Vec3)
    ensures r.y == p.y
    ensures Sound(m) && degree == 0.0 ==> r == p
  {
    var t := DegToRad * degree;
    Vec3(TurnSecond(p.z, p.x, m.cos(t), m.sin(t)), p.y, TurnFirst(p.z, p.x, m.cos(t), m.sin(t)))
  }

  /** Rotation about the z axis by `degree` degrees. */
  function RotateZ(m: Math, p: Vec3, degree: real): (r: Vec3)
    ensures r.z == p.z
    ensures Sound(m) && degree == 0.0 ==> r == p
  {
    var t := DegToRad * degree;
    Vec3(TurnFirst(p.x, p.y, m.cos(t), m.sin(t)), TurnSecond(p.x, p.y, m.cos(t), m.sin(t)), p.z)
  }

  function SquaredNorm(p: Vec3): real
  {
    p.x * p.x + p.y * p.y + p.z * p.z
  }

  /** With `c^2 + s^2 = 1` the planar rotation keeps `u^2 + w^2`. */
  lemma TurnKeepsLength(u: real, w: real, c: real, s: real)
    requires s * s + c * c == 1.0
    ensures TurnFirst(u, w, c, s) * TurnFirst(u, w, c, s) + TurnSecond(u, w, c, s) * TurnSecond(u, w, c, s)
         == u * u + w * w
  {
    assert (u * c - w * s) * (u * c - w * s) + (u * s + w * c) * (u * s + w * c)
        == (u * u + w * w) * (s * s + c * c);
  }

  /** With a library satisfying sin^2 + cos^2 = 1, each rotation keeps lengths. */
  lemma RotationsPreserveLength(m: Math, p: Vec3, degree: real)
    requires var t := DegToRad * degree; m.sin(t) * m.sin(t) + m.cos(t) * m.cos(t) == 1.0
    ensures SquaredNorm(RotateX(m, p, degree)) == SquaredNorm(p)
    ensures SquaredNorm(RotateY(m, p, degree)) == SquaredNorm(p)
    ensures SquaredNorm(RotateZ(m, p, degree)) == SquaredNorm(p)
  {
    RotateXKeepsLength(m, p, degree);
    RotateYKeepsLength(m, p, degree);
    RotateZKeepsLength(m, p, degree);
  }

  lemma RotateXKeepsLength(m: Math, p: Vec3, degree: real)
    requires var t := DegToRad * degree; m.sin(t) * m.sin(t) + m.cos(t) * m.cos(t) == 1.0
    ensures SquaredNorm(RotateX(m, p, degree)) == SquaredNorm(p)
  {
    var t := DegToRad * degree;
    var s, c := m.sin(t), m.cos(t);
    var r := RotateX(m, p, degree);
    assert r.y == TurnFirst(p.y, p.z, c, s) && r.z == TurnSecond(p.y, p.z, c, s);
    TurnKeepsLength(p.y, p.z, c, s);
  }

  lemma RotateYKeepsLength(m: Math, p: Vec3, degree: real)
    requires var t := DegToRad * degree; m.sin(t) * m.sin(t) + m.cos(t) * m.cos(t) == 1.0
    ensures SquaredNorm(RotateY(m, p, degree)) == SquaredNorm(p)
  {
    var t := DegToRad * degree;
    var s, c := m.sin(t), m.cos(t);
    var r := RotateY(m, p, degree);
    assert r.z == TurnFirst(p.z, p.x, c, s) && r.x == TurnSecond(p.z, p.x, c, s);
    TurnKeepsLength(p.z, p.x, c, s);
  }

  lemma RotateZKeepsLength(m: Math, p: Vec3, degree: real)
    requires var t := DegToRad * degree; m.sin(t) * m.sin(t) + m.cos(t) * m.cos(t) == 1.0
    ensures SquaredNorm(RotateZ(m, p, degree)) == SquaredNorm(p)
  {
    var t := DegToRad * degree;
    var s, c := m.sin(t), m.cos(t);
    var r := RotateZ(m, p, degree);
    assert r.x == TurnFirst(p.x, p.y, c, s) && r.y == TurnSecond(p.x, p.y, c, s);
    TurnKeepsLength(p.x, p.y, c, s);
  }

  /** One template vertex rotated about x, y, z in turn and moved to `center`. */
  function PlaceVertex(m: Math, v: Vec3, center: Vec3, degX: real, degY: real, degZ: real): Vec3
  {
    Add(RotateZ(m, RotateY(m, RotateX(m, v, degX), degY), degZ), center)
  }

  /** Every vertex of a template placed as by `PlaceVertex`, in order. */
  function PlacePolygon(m: Math, poly: seq<Vec3>, center: Vec3, degX: real, degY: real, degZ: real)
    : (r: seq<Vec3>)
    ensures |r| == |poly|
    ensures forall k :: 0 <= k < |poly| ==> r[k] == PlaceVertex(m, poly[k], center, degX, degY, degZ)
  {
    if poly == [] then []
    else PlacePolygon(m, poly[..|poly| - 1], center, degX, degY, degZ)
         + [PlaceVertex(m, poly[|poly| - 1], center, degX, degY, degZ)]
  }

  /** Componentwise sum of a vertex list. */
  function Sum(ps: seq<Vec3>): Vec3
  {
    if ps == [] then Origin else Add(Sum(ps[..|ps| - 1]), ps[|ps| - 1])
  }

  /** `np.mean(polygon, axis=0)`; the empty outline is given the origin. */
  function Centroid(ps: seq<Vec3>): Vec3
  {
    if ps == [] then Origin else Scale(1.0 / |ps| as real, Sum(ps))
  }

  /** The three rotations in the order a pad is placed. */
  function Rotate(m: Math, v: Vec3, degX: real, degY: real, degZ: real): Vec3
  {
    RotateZ(m, RotateY(m, RotateX(m, v, degX), degY), degZ)
  }

  /** The planar rotation distributes over sums and commutes with scaling. */
  lemma TurnIsLinear(u1: real, w1: real, u2: real, w2: real, t: real, c: real, s: real)
    ensures TurnFirst(u1 + u2, w1 + w2, c, s) == TurnFirst(u1, w1, c, s) + TurnFirst(u2, w2, c, s)
    ensures TurnSecond(u1 + u2, w1 + w2, c, s) == TurnSecond(u1, w1, c, s) + TurnSecond(u2, w2, c, s)
    ensures TurnFirst(t * u1, t * w1, c, s) == t * TurnFirst(u1, w1, c, s)
    ensures TurnSecond(t * u1, t * w1, c, s) == t * TurnSecond(u1, w1, c, s)
  {
  }

  lemma RotateXIsLinear(m: Math, p: Vec3, q: Vec3, t: real, degree: real)
    ensures RotateX(m, Add(p, q), degree) == Add(RotateX(m, p, degree), RotateX(m, q, degree))
    ensures RotateX(m, Scale(t, p), degree) == Scale(t, RotateX(m, p, degree))
  {
    var a := DegToRad * degree;
    TurnIsLinear(p.y, p.z, q.y, q.z, t, m.cos(a), m.sin(a));
  }

  lemma RotateYIsLinear(m: Math, p: Vec3, q: Vec3, t: real, degree: real)
    ensures RotateY(m, Add(p, q), degree) == Add(RotateY(m, p, degree), RotateY(m, q, degree))
    ensures RotateY(m, Scale(t, p), degree) == Scale(t, RotateY(m, p, degree))
  {
    var a := DegToRad * degree;
    TurnIsLinear(p.z, p.x, q.z, q.x, t, m.cos(a), m.sin(a));
  }

  lemma RotateZIsLinear(m: Math, p: Vec3, q: Vec3, t: real, degree: real)
    ensures RotateZ(m, Add(p, q), degree) == Add(RotateZ(m, p, degree), RotateZ(m, q, degree))
    ensures RotateZ(m, Scale(t, p), degree) == Scale(t, RotateZ(m, p, degree))
  {
    var a := DegToRad * degree;
    TurnIsLinear(p.x, p.y, q.x, q.y, t, m.cos(a), m.sin(a));
  }

  lemma RotateIsLinear(m: Math, p: Vec3, q: Vec3, t: real, degX: real, degY: real, degZ: real)
    ensures Rotate(m, Add(p, q), degX, degY, degZ)
         == Add(Rotate(m, p, degX, degY, degZ), Rotate(m, q, degX, degY, degZ))
    ensures Rotate(m, Scale(t, p), degX, degY, degZ) == Scale(t, Rotate(m, p, degX, degY, degZ))
  {
    RotateXIsLinear(m, p, q, t, degX);
    var p1, q1 := RotateX(m, p, degX), RotateX(m, q, degX);
    RotateYIsLinear(m, p1, q1, t, degY);
    RotateZIsLinear(m, RotateY(m, p1, degY), RotateY(m, q1, degY), t, degZ);
  }

  lemma {:induction false} SumOfPlaced(m: Math, poly: seq<Vec3>, center: Vec3, degX: real, degY: real, degZ: real)
    ensures Sum(PlacePolygon(m, poly, center, degX, degY, degZ))
         == Add(Rotate(m, Sum(poly), degX, degY, degZ), Scale(|poly| as real, center))
    decreases |poly|
  {
    if poly == [] {
      RotateIsLinear(m, Origin, Origin, 0.0, degX, degY, degZ);
    } else {
      var init, last := poly[..|poly| - 1], poly[|poly| - 1];
      var n := |init| as real;
      var rest := PlacePolygon(m, init, center, degX, degY, degZ);
      var ri, rl := Rotate(m, Sum(init), degX, degY, degZ), Rotate(m, last, degX, degY, degZ);
      calc {
        Sum(PlacePolygon(m, poly, center, degX, degY, degZ));
        Add(Sum(rest), Add(rl, center));
        { SumOfPlaced(m, init, center, degX, degY, degZ); }
        Add(Add(ri, Scale(n, center)), Add(rl, center));
        { ScaleSucc(n, center); }
        Add(Add(ri, rl), Scale(n + 1.0, center));
        { RotateIsLinear(m, Sum(init), last, 1.0, degX, degY, degZ); }
        Add(Rotate(m, Sum(poly), degX, degY, degZ), Scale(|poly| as real, center));
      }
    }
  }

  /**
   * The recorded centre of a placed pad is the template's vertex mean
   * placed the same way; in particular, moving `center` by a vector moves
   * the pad's centre by the same vector.
   */
  lemma CentroidOfPlacedPad(m: Math, poly: seq<Vec3>, center: Vec3, degX: real, degY: real, degZ: real)
    requires poly != []
    ensures Centroid(PlacePolygon(m, poly, center, degX, degY, degZ))
         == PlaceVertex(m, Centroid(poly), center, degX, degY, degZ)
  {
    var n := |poly| as real;
    var r := Rotate(m, Sum(poly), degX, degY, degZ);
    calc {
      Centroid(PlacePolygon(m, poly, center, degX, degY, degZ));
      Scale(1.0 / n, Sum(PlacePolygon(m, poly, center, degX, degY, degZ)));
      { SumOfPlaced(m, poly, center, degX, degY, degZ); }
      Scale(1.0 / n, Add(r, Scale(n, center)));
      { ScaleDistributes(1.0 / n, r, Scale(n, center)); }
      Add(Scale(1.0 / n, r), Scale(1.0 / n, Scale(n, center)));
      { ScaleInverse(n, center); }
      Add(Scale(1.0 / n, r), center);
      { RotateIsLinear(m, Sum(poly), Sum(poly), 1.0 / n, degX, degY, degZ); }
      Add(Rotate(m, Scale(1.0 / n, Sum(poly)), degX, degY, degZ), center);
    }
  }

  /** Where and how one pad of a layout is placed, and the id it is given. */
  datatype Placement = Placement(center: Vec3, degX: real, degY: real, degZ: real, id: int)

  function Place(m: Math, template: seq<Vec3>, p: Placement): seq<Vec3>
  {
    PlacePolygon(m, template, p.center, p.degX, p.degY, p.degZ)
  }

  /**
   * The pad lists hold exactly the layout `plan` applied to `template`:
   * one pad per placement, in order, with its id and a zero charge.
   */
  ghost predicate Realizes(m: Math, template: seq<Vec3>, pads: seq<seq<Vec3>>, ids: seq<int>,
                           charges: seq<real>, plan: seq<Placement>)
  {
    |pads| == |plan| && |ids| == |plan| && |charges| == |plan|
    && forall k :: 0 <= k < |plan| ==>
         pads[k] == Place(m, template, plan[k]) && ids[k] == plan[k].id && charges[k] == 0.0
  }

  /** Appending the next placed pad extends a realised layout by that placement. */
  lemma RealizesAppend(m: Math, template: seq<Vec3>, pads: seq<seq<Vec3>>, ids: seq<int>,
                       charges: seq<real>, plan: seq<Placement>, whole: seq<Placement>)
    requires Realizes(m, template, pads, ids, charges, plan)
    requires |plan| < |whole| && plan == whole[..|plan|]
    ensures var p := whole[|plan|];
      Realizes(m, template, pads + [Place(m, template, p)], ids + [p.id], charges + [0.0], whole[..|plan| + 1])
  {
  }

  /**
   * An array of placed pads. `pads`, `ids`, `centers` and `charges` are
   * parallel lists, one entry per placed pad.
   */
  class ReadoutPadArray {
    var basepadlist: seq<BasePadShape>
    var pads: seq<seq<Vec3>>
    var ids: seq<int>
    var centers: seq<Vec3>
    var charges: seq<real>

    ghost predicate Valid()
      reads this
    {
      |ids| == |pads| && |centers| == |pads| && |charges| == |pads|
      && forall k :: 0 <= k < |pads| ==> centers[k] == Centroid(pads[k])
    }

    constructor ()
      ensures Valid()
      ensures basepadlist == [] && pads == [] && ids == [] && centers == [] && charges == []
    {
      basepadlist := [];
      pads := [];
      ids := [];
      centers := [];
      charges := [];
    }

    /** Registers a template; it gets the next template index. */
    method AddBasepad(shape: BasePadShape)
      requires Valid()
      modifies this
      ensures Valid()
      ensures basepadlist == old(basepadlist) + [shape]
      ensures pads == old(pads) && ids == old(ids) && centers == old(centers) && charges == old(charges)
    {
      basepadlist := basepadlist + [shape];
    }

    /**
     * Places template `baseid` (Python indexing, so negative ids count from
     * the end) and appends the pad, its id, its vertex mean and charge 0.
     */
    method AddPads(m: Math, center: Vec3, baseid: int, degX: real, degY: real, degZ: real, id: int)
      returns (o: Outcome)
      requires Valid()
      modifies this
      ensures Valid()
      ensures basepadlist == old(basepadlist)
      ensures PyIndex(|basepadlist|, baseid).None? ==>
        o == Fail(IndexError) && pads == old(pads) && ids == old(ids)
        && centers == old(centers) && charges == old(charges)
      ensures PyIndex(|basepadlist|, baseid).Some? ==>
        var template := basepadlist[PyIndex(|basepadlist|, baseid).value].polygon;
        var pad := PlacePolygon(m, template, center, degX, degY, degZ);
        o == Pass && pads == old(pads) + [pad] && ids == old(ids) + [id]
        && centers == old(centers) + [Centroid(pad)] && charges == old(charges) + [0.0]
    {
      var index := PyIndex(|basepadlist|, baseid);
      if index.None? {
        return Fail(IndexError);
      }
      var origin := basepadlist[index.value].polygon;
      var placed: seq<Vec3> := [];
      var i := 0;
      while i < |origin|
        invariant 0 <= i <= |origin|
        invariant placed == PlacePolygon(m, origin[..i], center, degX, degY, degZ)
      {
        var v := RotateX(m, origin[i], degX);
        v := RotateY(m, v, degY);
        v := RotateZ(m, v, degZ);
        placed := placed + [Add(v, center)];
        assert origin[..i + 1][..i] == origin[..i];
        i := i + 1;
      }
      assert origin[..i] == origin;
      pads := pads + [placed];
      ids := ids + [id];
      centers := centers + [Centroid(placed)];
      charges := charges + [0.0];
      o := Pass;
    }
  }

  /**
   * Places every pad of a layout plan, in order, with template 0: the
   * `for ...: pad.add_pads(...)` loops of the layout builders.
   */
  method AddLayout(pad: ReadoutPadArray, m: Math, plan: seq<Placement>)
    requires pad.Valid() && |pad.basepadlist| >= 1 && pad.pads == []
    modifies pad
    ensures pad.Valid() && pad.basepadlist == old(pad.basepadlist)
    ensures Realizes(m, pad.basepadlist[0].polygon, pad.pads, pad.ids, pad.charges, plan)
  {
    ghost var template := pad.basepadlist[0].polygon;
    for k := 0 to |plan|
      invariant pad.Valid() && pad.basepadlist == old(pad.basepadlist)
      invariant Realizes(m, template, pad.pads, pad.ids, pad.charges, plan[..k])
    {
      ghost var pads, ids, charges := pad.pads, pad.ids, pad.charges;
      var p := plan[k];
      var o := pad.AddPads(m, p.center, 0, p.degX, p.degY, p.degZ, p.id);
      RealizesAppend(m, template, pads, ids, charges, plan[..k], plan);
    }
    assert plan[..|plan|] == plan;
  }

  /** Vertex `k` of the regular `n`-gon with side `length`, turned by `theta` degrees in the x-z plane. */
  function RegularVertex(m: Math, n: int, length: real, theta: real, k: nat): (r: Vec3)
    requires n >= 3 && SineNonZeroAt(m, n)
    ensures r.y == 0.0
  {
    var radius := length / (2.0 * m.sin(m.pi / n as real));
    var angle := (k as real) * (2.0 * m.pi / n as real);
    var vx, vz := radius * m.cos(angle), radius * m.sin(angle);
    var t := theta * (m.pi / 180.0);
    Vec3(m.cos(t) * vx - m.sin(t) * vz, 0.0, m.sin(t) * vx + m.cos(t) * vz)
  }

  /** The `n` vertices of a regular polygon template, in angular order. */
  function RegularTemplate(m: Math, n: int, length: real, theta: real): (vs: seq<Vec3>)
    requires n >= 3 && SineNonZeroAt(m, n)
    ensures |vs| == n
    ensures forall k :: 0 <= k < n ==> vs[k].y == 0.0
  {
    seq(n, k requires 0 <= k < n => RegularVertex(m, n, length, theta, k))
  }

  /**
   * A regular `n`-gon template in the x-z plane (y = 0); for `n < 3` no
   * shape is produced.
   */
  method GenerateRegularNPolygon(m: Math, n: int, length: real, theta: real) returns (shape: BasePadShape?)
    requires n >= 3 ==> SineNonZeroAt(m, n)
    ensures n < 3 <==> shape == null
    ensures shape != null ==>
      fresh(shape) && shape.center == Origin && shape.polygon == RegularTemplate(m, n, length, theta)
  {
    if n < 3 {
      return null;
    }
    shape := new BasePadShape();
    var i := 0;
    while i < n
      invariant 0 <= i <= n
      invariant shape.center == Origin && |shape.polygon| == i
      invariant forall k :: 0 <= k < i ==> shape.polygon[k] == RegularVertex(m, n, length, theta, k)
    {
      shape.AddPolygon(RegularVertex(m, n, length, theta, i));
      i := i + 1;
    }
    assert shape.polygon == RegularTemplate(m, n, length, theta);
  }

  /** The rectangle outline with sides `long` and `short` in the named plane. */
  function OblongVertices(long: real, short: real, plane: string): seq<Vec3>
  {
    var l, s := long / 2.0, short / 2.0;
    if plane == "yz" || plane == "zy" then
      [Vec3(0.0, s, l), Vec3(0.0, s, -l), Vec3(0.0, -s, -l), Vec3(0.0, -s, l)]
    else if plane == "xy" then
      [Vec3(l, s, 0.0), Vec3(l, -s, 0.0), Vec3(-l, -s, 0.0), Vec3(-l, s, 0.0)]
    else if plane == "xz" then
      [Vec3(l, 0.0, s), Vec3(l, 0.0, -s), Vec3(-l, 0.0, -s), Vec3(-l, 0.0, s)]
    else []
  }

  /** Whether two vertices differ in exactly one coordinate. */
  predicate OneCoordinateApart(p: Vec3, q: Vec3)
  {
    (if p.x == q.x then 0 else 1) + (if p.y == q.y then 0 else 1) + (if p.z == q.z then 0 else 1) == 1
  }

  /** Four vertices where each is one side away from the next, cyclically, centred on the origin. */
  predicate CentredRectangle(vs: seq<Vec3>)
  {
    |vs| == 4
    && OneCoordinateApart(vs[0], vs[1]) && OneCoordinateApart(vs[1], vs[2])
    && OneCoordinateApart(vs[2], vs[3]) && OneCoordinateApart(vs[3], vs[0])
    && Centroid(vs) == Origin
  }

  lemma SumOfFour(vs: seq<Vec3>)
    requires |vs| == 4
    ensures Sum(vs) == Add(Add(Add(vs[0], vs[1]), vs[2]), vs[3])
  {
    assert Sum(vs[..1]) == Add(Origin, vs[0]) by { assert vs[..1][..0] == []; }
    assert Sum(vs[..2]) == Add(Sum(vs[..1]), vs[1]) by { assert vs[..2][..1] == vs[..1]; }
    assert Sum(vs[..3]) == Add(Sum(vs[..2]), vs[2]) by { assert vs[..3][..2] == vs[..2]; }
    assert Sum(vs) == Add(Sum(vs[..3]), vs[3]) by { assert vs[..3] == vs[..|vs| - 1]; }
  }

  /**
   * The plane names "yz", "zy", "xy" and "xz" give a rectangle centred on
   * the origin; "yx", "zx" and every other name give an empty outline.
   */
  lemma OblongIsCentredRectangle(long: real, short: real, plane: string)
    requires long != 0.0 && short != 0.0
    ensures plane == "yz" || plane == "zy" || plane == "xy" || plane == "xz"
      ==> CentredRectangle(OblongVertices(long, short, plane))
    ensures !(plane == "yz" || plane == "zy" || plane == "xy" || plane == "xz")
      ==> OblongVertices(long, short, plane) == []
  {
    var vs := OblongVertices(long, short, plane);
    if plane == "yz" || plane == "zy" || plane == "xy" || plane == "xz" {
      SumOfFour(vs);
      assert |vs| == 4;
      assert OneCoordinateApart(vs[0], vs[1]);
      assert OneCoordinateApart(vs[1], vs[2]);
      assert OneCoordinateApart(vs[2], vs[3]);
      assert OneCoordinateApart(vs[3], vs[0]);
      assert Sum(vs) == Origin;
      assert Centroid(vs) == Origin;
    }
  }

  /** A rectangle template named by its plane, as by `OblongVertices`. */
  method GenerateOblong4Polygon(long: real, short: real, plane: string) returns (shape: BasePadShape)
    ensures fresh(shape) && shape.center == Origin
    ensures shape.polygon == OblongVertices(long, short, plane)
  {
    shape := new BasePadShape();
    var l, s := long / 2.0, short / 2.0;
    if plane == "yz" || plane == "zy" {
      shape.AddPolygon(Vec3(0.0, s, l));
      shape.AddPolygon(Vec3(0.0, s, -l));
      shape.AddPolygon(Vec3(0.0, -s, -l));
      shape.AddPolygon(Vec3(0.0, -s, l));
    } else if plane == "xy" {
      shape.AddPolygon(Vec3(l, s, 0.0));
      shape.AddPolygon(Vec3(l, -s, 0.0));
      shape.AddPolygon(Vec3(-l, -s, 0.0));
      shape.AddPolygon(Vec3(-l, s, 0.0));
    } else if plane == "xz" {
      shape.AddPolygon(Vec3(l, 0.0, s));
      shape.AddPolygon(Vec3(l, 0.0, -s));
      shape.AddPolygon(Vec3(-l, 0.0, -s));
      shape.AddPolygon(Vec3(-l, 0.0, s));
    }
  }
}
