/**
 * The curve instances: their position buffers (Float32Arrays of xyz triples), the draw
 * range that reveals a prefix of each curve, the end-point and cap updates, and the layout
 * of the two mirrored instances. Curve evaluation belongs to three.js and is seen only
 * through the functions of a `Curve` value.
 */
module Curves {
  import opened Types
  import opened MathUtils
  import opened Configuration
  import opened Camera

  /** A curve as three.js evaluates it: the point at `t`, and the angle of its unit tangent at `t`. */
  datatype Curve = Curve(point: real -> Vec2, tangentAngle: real -> real)

  // ---------------------------------------------------------------------------------------
  // Position buffers

  /** The buffer after a Float32Array store at index `k`; a store out of range is ignored. */
  function Slot(buf: seq<real>, k: int, v: real): (r: seq<real>)
    ensures |r| == |buf|
    ensures forall i :: 0 <= i < |buf| ==> r[i] == if i == k then v else buf[i]
  {
    if 0 <= k < |buf| then buf[k := v] else buf
  }

  /** The buffer after `setXYZ(index, x, y, z)`: the three stores of vertex `index`. */
  function WithVertex(buf: seq<real>, index: int, x: real, y: real, z: real): (r: seq<real>)
    ensures |r| == |buf|
    ensures 0 <= index && 3 * index + 2 < |buf| ==> r[3 * index] == x && r[3 * index + 1] == y && r[3 * index + 2] == z
  {
    Slot(Slot(Slot(buf, 3 * index, x), 3 * index + 1, y), 3 * index + 2, z)
  }

  /** Writing a vertex changes its own three slots, when they exist, and nothing else. */
  lemma WithVertexFrame(buf: seq<real>, index: int, x: real, y: real, z: real)
    ensures |WithVertex(buf, index, x, y, z)| == |buf|
    ensures forall i :: 0 <= i < |buf| && (i < 3 * index || 3 * index + 2 < i) ==>
              WithVertex(buf, index, x, y, z)[i] == buf[i]
    ensures 0 <= index && 3 * index + 2 < |buf| ==>
              && WithVertex(buf, index, x, y, z)[3 * index] == x
              && WithVertex(buf, index, x, y, z)[3 * index + 1] == y
              && WithVertex(buf, index, x, y, z)[3 * index + 2] == z
  {
  }

  /** Component `c` of the xyz triple stored for a planar point. */
  function Coord(p: Vec2, c: int): real {
    if c == 0 then p.x else if c == 1 then p.y else 0.0
  }

  /** A zeroed buffer of `size` slots with the first `n` points written as xyz triples. */
  function FilledPrefix(pts: seq<Vec2>, size: nat, n: nat): seq<real>
    requires n <= |pts|
    decreases n
  {
    if n == 0 then seq(size, _ => 0.0)
    else WithVertex(FilledPrefix(pts, size, n - 1), n - 1, pts[n - 1].x, pts[n - 1].y, 0.0)
  }

  /** The buffer `makeCurvePoints` builds for sampled points `pts`. */
  function CurvePositions(pts: seq<Vec2>, lineSegments: nat): seq<real> {
    FilledPrefix(pts, (lineSegments + 1) * 3, |pts|)
  }

  /** Slot `i` after writing planar point `p` as vertex `k`. */
  lemma WithVertexAt(buf: seq<real>, k: nat, p: Vec2, i: int)
    requires 0 <= i < |buf|
    ensures WithVertex(buf, k, p.x, p.y, 0.0)[i] == if i / 3 == k then Coord(p, i % 3) else buf[i]
  {
    var q, r := i / 3, i % 3;
    assert i == 3 * q + r && 0 <= r < 3;
    if q == k {
      assert i == 3 * k + r;
    } else {
      assert i < 3 * k || 3 * k + 2 < i;
    }
  }

  lemma {:induction false} FilledPrefixAt(pts: seq<Vec2>, size: nat, n: nat, i: int)
    requires n <= |pts| && 0 <= i < size
    ensures |FilledPrefix(pts, size, n)| == size
    ensures FilledPrefix(pts, size, n)[i] == if i / 3 < n then Coord(pts[i / 3], i % 3) else 0.0
    decreases n
  {
    if n > 0 {
      FilledPrefixAt(pts, size, n - 1, i);
      WithVertexAt(FilledPrefix(pts, size, n - 1), n - 1, pts[n - 1], i);
    }
  }

  /** The three slots of one vertex of the filled buffer. */
  lemma VertexOfCurvePositions(pts: seq<Vec2>, lineSegments: nat, v: nat)
    requires v <= lineSegments
    ensures |CurvePositions(pts, lineSegments)| == (lineSegments + 1) * 3
    ensures CurvePositions(pts, lineSegments)[3 * v] == if v < |pts| then pts[v].x else 0.0
    ensures CurvePositions(pts, lineSegments)[3 * v + 1] == if v < |pts| then pts[v].y else 0.0
    ensures CurvePositions(pts, lineSegments)[3 * v + 2] == 0.0
  {
    var size := (lineSegments + 1) * 3;
    assert (3 * v) / 3 == v && (3 * v) % 3 == 0;
    assert (3 * v + 1) / 3 == v && (3 * v + 1) % 3 == 1;
    assert (3 * v + 2) / 3 == v && (3 * v + 2) % 3 == 2;
    FilledPrefixAt(pts, size, |pts|, 3 * v);
    FilledPrefixAt(pts, size, |pts|, 3 * v + 1);
    FilledPrefixAt(pts, size, |pts|, 3 * v + 2);
  }

  /**
   * The filled buffer holds `lineSegments + 1` vertices; every z slot is 0, every vertex
   * with a sampled point holds that point, and any vertex beyond the samples stays 0.
   */
  lemma CurvePositionsLayout(pts: seq<Vec2>, lineSegments: nat)
    ensures |CurvePositions(pts, lineSegments)| == (lineSegments + 1) * 3
    ensures forall v :: 0 <= v <= lineSegments ==> CurvePositions(pts, lineSegments)[3 * v + 2] == 0.0
    ensures forall v :: 0 <= v <= lineSegments && v < |pts| ==>
              && CurvePositions(pts, lineSegments)[3 * v] == pts[v].x
              && CurvePositions(pts, lineSegments)[3 * v + 1] == pts[v].y
    ensures forall v :: 0 <= v <= lineSegments && |pts| <= v ==>
              CurvePositions(pts, lineSegments)[3 * v] == 0.0 && CurvePositions(pts, lineSegments)[3 * v + 1] == 0.0
  {
    FilledPrefixAt(pts, (lineSegments + 1) * 3, |pts|, 0);
    forall v | 0 <= v <= lineSegments
      ensures CurvePositions(pts, lineSegments)[3 * v + 2] == 0.0
      ensures v < |pts| ==>
                (CurvePositions(pts, lineSegments)[3 * v] == pts[v].x
                 && CurvePositions(pts, lineSegments)[3 * v + 1] == pts[v].y)
      ensures |pts| <= v ==>
                (CurvePositions(pts, lineSegments)[3 * v] == 0.0
                 && CurvePositions(pts, lineSegments)[3 * v + 1] == 0.0)
    {
      VertexOfCurvePositions(pts, lineSegments, v);
    }
  }

  /** A store into a Float32Array: an index outside the array is ignored. */
  method WriteSlot(a: array<real>, k: int, v: real)
    modifies a
    ensures a[..] == Slot(old(a[..]), k, v)
  {
    if 0 <= k < a.Length {
      a[k] := v;
      assert a[..] == old(a[..])[k := v];
    }
  }

  /** `new Float32Array(size)`: a fresh buffer of `size` zeros. */
  method ZeroBuffer(size: nat) returns (a: array<real>)
    ensures fresh(a) && a[..] == seq(size, _ => 0.0)
  {
    a := new real[size](_ => 0.0);
  }

  /** The three stores of vertex `index` into a Float32Array, as the fill loop and `setXYZ` make them. */
  method WriteVertex(a: array<real>, index: int, x: real, y: real, z: real)
    modifies a
    ensures a[..] == WithVertex(old(a[..]), index, x, y, z)
  {
    WriteSlot(a, 3 * index, x);
    WriteSlot(a, 3 * index + 1, y);
    WriteSlot(a, 3 * index + 2, z);
  }

  /** The fill loop of `makeCurvePoints`: a zeroed buffer of `lineSegments + 1` vertices, then one triple per point. */
  method FillCurvePositions(pts: seq<Vec2>, lineSegments: nat) returns (positions: array<real>)
    ensures fresh(positions)
    ensures positions[..] == CurvePositions(pts, lineSegments)
  {
    var size := (lineSegments + 1) * 3;
    positions := ZeroBuffer(size);
    var i := 0;
    while i < |pts|
      invariant 0 <= i <= |pts|
      invariant positions.Length == size
      invariant positions[..] == FilledPrefix(pts, size, i)
    {
      WriteVertex(positions, i, pts[i].x, pts[i].y, 0.0);
      i := i + 1;
    }
  }

  /** A points geometry: its position buffer and the range of vertices it draws. */
  class CurveGeometry {
    const positions: array<real>
    var drawStart: int
    var drawCount: int

    /** The geometry `makeCurvePoints` builds from sampled points: filled, and drawn in full. */
    constructor (pts: seq<Vec2>, lineSegments: nat)
      ensures fresh(positions)
      ensures positions[..] == CurvePositions(pts, lineSegments)
      ensures drawStart == 0 && drawCount == lineSegments + 1
    {
      var buf := FillCurvePositions(pts, lineSegments);
      positions := buf;
      drawStart := 0;
      drawCount := lineSegments + 1;
    }

    method SetDrawRange(start: int, count: int)
      modifies this
      ensures drawStart == start && drawCount == count
    {
      drawStart := start;
      drawCount := count;
    }
  }

  /** Move vertex `count - 1` onto the curve's exact point at `tEnd`, in the plane z = 0. */
  method SetExactEndPoint(curve: Curve, geom: CurveGeometry, tEnd: real, count: int)
    modifies geom.positions
    ensures geom.positions[..]
         == WithVertex(old(geom.positions[..]), count - 1, curve.point(tEnd).x, curve.point(tEnd).y, 0.0)
  {
    var p := curve.point(tEnd);
    var last := count - 1;
    WriteSlot(geom.positions, last * 3 + 0, p.x);
    WriteSlot(geom.positions, last * 3 + 1, p.y);
    WriteSlot(geom.positions, last * 3 + 2, 0.0);
  }

  // ---------------------------------------------------------------------------------------
  // Draw range and end caps

  lemma FractionOfAtMost(t: real, n: int)
    ensures 0.0 <= t <= 1.0 && n >= 0 ==> t * n as real <= n as real
  {
    var m := n as real;
    if 0.0 <= t <= 1.0 && n >= 0 {
      assert m - t * m == (1.0 - t) * m;
      assert (1.0 - t) * m >= 0.0;
    }
  }

  lemma FloorBounds(x: real)
    ensures x.Floor as real <= x < x.Floor as real + 1.0
  {
  }

  /** Vertices drawn at progress `tEnd`: always at least a segment, never more than allocated. */
  function DrawCount(tEnd: real, lineSegments: int): (count: int)
    ensures count >= 2
    ensures 0.0 <= tEnd <= 1.0 && lineSegments >= 1 ==> count <= lineSegments + 1
    ensures tEnd * lineSegments as real >= 1.0 ==> count == (tEnd * lineSegments as real).Floor + 1
    ensures tEnd * lineSegments as real < 1.0 ==> count == 2
  {
    var x := tEnd * lineSegments as real;
    FractionOfAtMost(tEnd, lineSegments);
    FloorBounds(x);
    var f := x.Floor;
    if 2 >= f + 1 then 2 else f + 1
  }

  /** More progress never draws fewer vertices. */
  lemma DrawCountMonotone(t1: real, t2: real, lineSegments: int)
    requires t1 <= t2 && lineSegments >= 0
    ensures DrawCount(t1, lineSegments) <= DrawCount(t2, lineSegments)
  {
    var n := lineSegments as real;
    ScaleMonotone(t1, t2, n);
    FloorMonotone(t1 * n, t2 * n);
  }

  lemma ScaleMonotone(a1: real, a2: real, n: real)
    requires a1 <= a2 && n >= 0.0
    ensures a1 * n <= a2 * n
  {
    var d := a2 - a1;
    assert d * n >= 0.0;
    assert a2 * n == a1 * n + d * n;
  }

  lemma FloorMonotone(x1: real, x2: real)
    requires x1 <= x2
    ensures x1.Floor <= x2.Floor
  {
    FloorBounds(x1);
    FloorBounds(x2);
  }

  /** Progress 1 draws every allocated vertex. */
  lemma DrawCountAtEnd(lineSegments: int)
    requires lineSegments >= 1
    ensures DrawCount(1.0, lineSegments) == lineSegments + 1
  {
  }

  /** For progress in [0,1] the exact end point lands on a vertex inside the buffer, so its stores are never dropped. */
  lemma EndPointInBuffer(tEnd: real, lineSegments: int)
    requires 0.0 <= tEnd <= 1.0 && lineSegments >= 1
    ensures 0 <= 3 * (DrawCount(tEnd, lineSegments) - 1)
    ensures 3 * (DrawCount(tEnd, lineSegments) - 1) + 2 < (lineSegments + 1) * 3
  {
  }

  /** The curve parameter at which a cap samples its tangent, kept off both ends. */
  function CapTangentParam(tEnd: real): (te: real)
    ensures 0.0001 <= te <= 0.9999
    ensures 0.0001 <= tEnd <= 0.9999 ==> te == tEnd
    ensures tEnd <= 0.0001 ==> te == 0.0001
    ensures 0.9999 <= tEnd ==> te == 0.9999
  {
    Min(0.9999, Max(0.0001, tEnd))
  }

  /** Cap scale inside a group of scale `groupScale`, so the cap spans `desiredPx` pixels on screen. */
  function CapScale(desiredPx: real, groupScale: real, wpp: real): (scale: real)
    ensures groupScale != 0.0 ==> scale * groupScale == desiredPx * wpp
    ensures groupScale == 0.0 ==> scale == desiredPx * wpp
  {
    var desiredWorld := desiredPx * wpp;
    var inverse := if groupScale != 0.0 then 1.0 / groupScale else 1.0;
    desiredWorld * inverse
  }

  /** A teardrop cap mesh: its position, rotation and uniform scale. */
  class Cap {
    var x: real
    var y: real
    var z: real
    var rotX: real
    var rotY: real
    var rotZ: real
    var scale: real

    constructor ()
      ensures x == 0.0 && y == 0.0 && z == 0.0
      ensures rotX == 0.0 && rotY == 0.0 && rotZ == 0.0 && scale == 1.0
    {
      x, y, z := 0.0, 0.0, 0.0;
      rotX, rotY, rotZ := 0.0, 0.0, 0.0;
      scale := 1.0;
    }
  }

  /** Place a cap at the curve's point for `tEnd`, aligned with its tangent and sized in pixels. */
  method UpdateCap(cap: Cap, curve: Curve, tEnd: real, originOffset: Vec3,
                   desiredPx: real, groupScale: real, wpp: real)
    modifies cap
    ensures cap.x == curve.point(tEnd).x - originOffset.x
    ensures cap.y == curve.point(tEnd).y - originOffset.y
    ensures cap.z == 0.0
    ensures cap.rotX == 0.0 && cap.rotY == 0.0
    ensures cap.rotZ == curve.tangentAngle(CapTangentParam(tEnd))
    ensures cap.scale == CapScale(desiredPx, groupScale, wpp)
  {
    var p := curve.point(tEnd);
    cap.x, cap.y, cap.z := p.x - originOffset.x, p.y - originOffset.y, 0.0;
    var angle := curve.tangentAngle(CapTangentParam(tEnd));
    cap.rotX, cap.rotY, cap.rotZ := 0.0, 0.0, angle;
    cap.scale := CapScale(desiredPx, groupScale, wpp);
  }

  // ---------------------------------------------------------------------------------------
  // Instances and layout

  /** A scene group: uniform scale and position. */
  class Group {
    var scale: real
    var x: real
    var y: real
    var z: real

    constructor ()
      ensures scale == 1.0 && x == 0.0 && y == 0.0 && z == 0.0
    {
      scale, x, y, z := 1.0, 0.0, 0.0, 0.0;
    }
  }

  /** One curve instance: a green and a blue curve with their caps, in one group. */
  class Instance {
    const group: Group
    const greenCurve: Curve
    const green: CurveGeometry
    const blueCurve: Curve
    const blue: CurveGeometry
    const greenCap: Cap
    const blueCap: Cap
    const baseWidth: real
    const originOffset: Vec3

    /** The parts are distinct objects. */
    ghost predicate Valid() {
      green != blue && green.positions != blue.positions && greenCap != blueCap
    }

    constructor (group: Group, greenCurve: Curve, green: CurveGeometry, blueCurve: Curve, blue: CurveGeometry,
                 greenCap: Cap, blueCap: Cap, baseWidth: real, originOffset: Vec3)
      requires green != blue && green.positions != blue.positions && greenCap != blueCap
      ensures Valid()
      ensures this.group == group && this.greenCurve == greenCurve && this.green == green
      ensures this.blueCurve == blueCurve && this.blue == blue
      ensures this.greenCap == greenCap && this.blueCap == blueCap
      ensures this.baseWidth == baseWidth && this.originOffset == originOffset
    {
      this.group := group;
      this.greenCurve := greenCurve;
      this.green := green;
      this.blueCurve := blueCurve;
      this.blue := blue;
      this.greenCap := greenCap;
      this.blueCap := blueCap;
      this.baseWidth := baseWidth;
      this.originOffset := originOffset;
    }
  }

  /**
   * Build an instance as `createCurveInstance` does: both geometries filled from their sampled
   * points and drawn in full, the caps lifted to z = 3 and z = 4, and every cap then moved by
   * `-center`, the centre of the group's bounding box. `center` and `baseWidth` are measured by
   * three.js and come in as parameters.
   */
  method CreateCurveInstance(greenCurve: Curve, greenPts: seq<Vec2>, blueCurve: Curve, bluePts: seq<Vec2>,
                             lineSegments: nat, center: Vec3, baseWidth: real) returns (inst: Instance)
    ensures fresh(inst) && fresh(inst.group) && fresh(inst.green) && fresh(inst.blue)
    ensures fresh(inst.greenCap) && fresh(inst.blueCap)
    ensures inst.Valid()
    ensures inst.greenCurve == greenCurve && inst.blueCurve == blueCurve
    ensures inst.green.positions[..] == CurvePositions(greenPts, lineSegments)
    ensures inst.blue.positions[..] == CurvePositions(bluePts, lineSegments)
    ensures inst.green.drawStart == 0 && inst.green.drawCount == lineSegments + 1
    ensures inst.blue.drawStart == 0 && inst.blue.drawCount == lineSegments + 1
    ensures inst.greenCap.x == -center.x && inst.greenCap.y == -center.y && inst.greenCap.z == 3.0 - center.z
    ensures inst.blueCap.x == -center.x && inst.blueCap.y == -center.y && inst.blueCap.z == 4.0 - center.z
    ensures inst.greenCap.scale == 1.0 && inst.blueCap.scale == 1.0
    ensures inst.group.scale == 1.0 && inst.group.x == 0.0 && inst.group.y == 0.0 && inst.group.z == 0.0
    ensures inst.originOffset == center && inst.baseWidth == baseWidth
  {
    var greenCap := new Cap();
    var blueCap := new Cap();
    greenCap.z := 3.0;
    blueCap.z := 4.0;
    greenCap.x, greenCap.y, greenCap.z := greenCap.x - center.x, greenCap.y - center.y, greenCap.z - center.z;
    blueCap.x, blueCap.y, blueCap.z := blueCap.x - center.x, blueCap.y - center.y, blueCap.z - center.z;
    var group := new Group();
    var green := new CurveGeometry(greenPts, lineSegments);
    var blue := new CurveGeometry(bluePts, lineSegments);
    inst := new Instance(group, greenCurve, green, blueCurve, blue, greenCap, blueCap, baseWidth, center);
  }

  /**
   * Reveal both curves of an instance up to `tEnd`: set the draw range, move the last drawn
   * vertex onto the exact end point and place both caps there. `pxH` is the height of the
   * renderer's drawing buffer in pixels.
   */
  method UpdateCurveInstance(cfg: Config, cam: OrthoCamera, pxH: real, inst: Instance, tEnd: real)
    requires cam.zoom != 0.0 && pxH != 0.0
    requires inst.Valid()
    modifies inst.green, inst.blue, inst.green.positions, inst.blue.positions, inst.greenCap, inst.blueCap
    ensures var count := DrawCount(tEnd, cfg.lineSegments);
            && inst.green.drawStart == 0 && inst.green.drawCount == count
            && inst.blue.drawStart == 0 && inst.blue.drawCount == count
            && inst.green.positions[..] == WithVertex(old(inst.green.positions[..]), count - 1,
                 inst.greenCurve.point(tEnd).x, inst.greenCurve.point(tEnd).y, 0.0)
            && inst.blue.positions[..] == WithVertex(old(inst.blue.positions[..]), count - 1,
                 inst.blueCurve.point(tEnd).x, inst.blueCurve.point(tEnd).y, 0.0)
    ensures var wpp := WorldUnitsPerPixelOrtho(cam, pxH);
            && inst.greenCap.scale == CapScale(cfg.capPxGreen, inst.group.scale, wpp)
            && inst.blueCap.scale == CapScale(cfg.capPxBlue, inst.group.scale, wpp)
    ensures inst.greenCap.x == inst.greenCurve.point(tEnd).x - inst.originOffset.x
    ensures inst.greenCap.y == inst.greenCurve.point(tEnd).y - inst.originOffset.y
    ensures inst.greenCap.z == 0.0 && inst.greenCap.rotX == 0.0 && inst.greenCap.rotY == 0.0
    ensures inst.greenCap.rotZ == inst.greenCurve.tangentAngle(CapTangentParam(tEnd))
    ensures inst.blueCap.x == inst.blueCurve.point(tEnd).x - inst.originOffset.x
    ensures inst.blueCap.y == inst.blueCurve.point(tEnd).y - inst.originOffset.y
    ensures inst.blueCap.z == 0.0 && inst.blueCap.rotX == 0.0 && inst.blueCap.rotY == 0.0
    ensures inst.blueCap.rotZ == inst.blueCurve.tangentAngle(CapTangentParam(tEnd))
  {
    var count := DrawCount(tEnd, cfg.lineSegments);

    inst.green.SetDrawRange(0, count);
    inst.blue.SetDrawRange(0, count);

    SetExactEndPoint(inst.greenCurve, inst.green, tEnd, count);
    SetExactEndPoint(inst.blueCurve, inst.blue, tEnd, count);

    var wpp := WorldUnitsPerPixelOrtho(cam, pxH);
    var s := inst.group.scale;

    UpdateCap(inst.greenCap, inst.greenCurve, tEnd, inst.originOffset, cfg.capPxGreen, s, wpp);
    UpdateCap(inst.blueCap, inst.blueCurve, tEnd, inst.originOffset, cfg.capPxBlue, s, wpp);
  }

  datatype Layout = Layout(targetWidth: real, xCenter: real, scaleLeft: real, scaleRight: real)

  /** Size and place two instances side by side, a gutter apart, each filling half the view less the gutter. */
  function ComputeLayout(cam: OrthoCamera, cfg: Config, leftBaseWidth: real, rightBaseWidth: real): (l: Layout)
    requires cam.zoom != 0.0 && leftBaseWidth != 0.0 && rightBaseWidth != 0.0
    ensures l.targetWidth >= 0.001
    ensures l.targetWidth >= GetVisibleSize(cam).width * 0.5 - cfg.gutterWorld
    ensures l.targetWidth > 0.001 ==> l.targetWidth == GetVisibleSize(cam).width * 0.5 - cfg.gutterWorld
    ensures l.xCenter - l.targetWidth / 2.0 == cfg.gutterWorld / 2.0
    ensures l.scaleLeft * leftBaseWidth == l.targetWidth
    ensures l.scaleRight * rightBaseWidth == l.targetWidth
  {
    var v := GetVisibleSize(cam);
    var targetWidth := Max(0.001, v.width * 0.5 - cfg.gutterWorld);
    var scaleLeft := targetWidth / leftBaseWidth;
    var scaleRight := targetWidth / rightBaseWidth;
    var xCenter := cfg.gutterWorld * 0.5 + targetWidth * 0.5;
    Layout(targetWidth, xCenter, scaleLeft, scaleRight)
  }

  /**
   * Placed at -xCenter and +xCenter, the two instances' inner edges are exactly one gutter
   * apart; when the view is wide enough for the floor not to apply, their outer edges sit
   * half a gutter inside the visible edges.
   */
  lemma LayoutEdges(cam: OrthoCamera, cfg: Config, leftBaseWidth: real, rightBaseWidth: real)
    requires cam.zoom != 0.0 && leftBaseWidth != 0.0 && rightBaseWidth != 0.0
    ensures var l := ComputeLayout(cam, cfg, leftBaseWidth, rightBaseWidth);
            (l.xCenter - l.targetWidth / 2.0) - (-l.xCenter + l.targetWidth / 2.0) == cfg.gutterWorld
    ensures var l := ComputeLayout(cam, cfg, leftBaseWidth, rightBaseWidth);
            l.targetWidth > 0.001 ==>
              l.xCenter + l.targetWidth / 2.0 == GetVisibleSize(cam).width / 2.0 - cfg.gutterWorld / 2.0
  {
  }

  /** Apply a layout: scale each instance's group and place it at -xCenter or +xCenter. */
  method ApplyLayout(left: Instance, right: Instance, layout: Layout)
    modifies left.group, right.group
    ensures right.group.scale == layout.scaleRight
    ensures right.group.x == layout.xCenter && right.group.y == 0.0 && right.group.z == 0.0
    ensures left.group != right.group ==>
              && left.group.scale == layout.scaleLeft
              && left.group.x == -layout.xCenter && left.group.y == 0.0 && left.group.z == 0.0
  {
    left.group.scale := layout.scaleLeft;
    right.group.scale := layout.scaleRight;

    left.group.x, left.group.y, left.group.z := -layout.xCenter, 0.0, 0.0;
    right.group.x, right.group.y, right.group.z := layout.xCenter, 0.0, 0.0;
  }
}
