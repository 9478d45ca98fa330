/**
 * The procedural shape generators of main/shape.cpp: the running write
 * index of `make_cylinder` and `make_cone`, which fills preallocated
 * position and normal buffers, and the icosphere subdivision of
 * `make_sphere`, which grows the point list and rebuilds the face list on
 * every pass, followed by the pre-transform of positions and normals.
 */
module Shapes {
  import opened Matrices
  import opened Meshes

  /** `GLuint` is 32 bits wide. */
  const GLuintLimit: nat := 0x1_0000_0000

  /** Positions and normals written by one pass of a generator loop. */
  datatype Strip = Strip(pos: seq<Vec3>, norm: seq<Vec3>)
  {
    function Then(o: Strip): Strip { Strip(pos + o.pos, norm + o.norm) }
  }

  /** The angle of ring point `k`: `k / subdivs * 2 * pi`. */
  function RingAngle(k: nat, subdivs: nat): real
    requires subdivs > 0
  {
    (k as real) / (subdivs as real) * 2.0 * Pi
  }

  /** `(sin, cos)` of ring point `k`, as `(y, z)`. */
  function RingPoint(m: Math, k: nat, subdivs: nat): Vec2
    requires subdivs > 0
  {
    Vec2(m.sin(RingAngle(k, subdivs)), m.cos(RingAngle(k, subdivs)))
  }


  /** A list of `n` copies of `v`: `std::vector(n, v)`. */
  function Filled<T>(n: nat, v: T): (r: seq<T>)
    ensures |r| == n && forall k :: 0 <= k < n ==> r[k] == v
  {
    if n == 0 then [] else Filled(n - 1, v) + [v]
  }

  /** The mesh a generator returns: no texture coordinates and constant colours. */
  function ColouredMesh(s: Strip, ambient: Vec3, diffuse: Vec3, specular: Vec3, shininess: real, emissive: Vec3): MeshData
  {
    var n := |s.pos|;
    MeshData(s.pos, s.norm, [], Filled(n, ambient), Filled(n, diffuse), Filled(n, specular),
             Filled(n, shininess), Filled(n, emissive))
  }

  // ---------------------------------------------------------------------
  // The pre-transform passes shared by the three generators
  // ---------------------------------------------------------------------

  /** `t = preTransform * (p, 1); t /= t.w;` and then the x, y, z of `t`. */
  function Projected(t: Mat44, p: Vec3): Vec3
    requires MatVec(t, Point(p))[3] != 0.0
  {
    var h := MatVec(t, Point(p));
    Vec3(h[0] / h[3], h[1] / h[3], h[2] / h[3])
  }

  /** The divide by w is defined for every position. */
  predicate Projectable(t: Mat44, ps: seq<Vec3>)
  {
    forall k :: 0 <= k < |ps| ==> MatVec(t, Point(ps[k]))[3] != 0.0
  }

  /** What the two passes make of a strip: projected positions and normals times the normal matrix. */
  function PreTransformed(m: Math, t: Mat44, s: Strip): Strip
    requires Projectable(t, s.pos)
  {
    Strip(seq(|s.pos|, k requires 0 <= k < |s.pos| => Projected(t, s.pos[k])),
          seq(|s.norm|, k requires 0 <= k < |s.norm| => m.mul33(NormalMatrix(m, t), s.norm[k])))
  }

  /** The range-for over `pos`: each position replaced by its projection. */
  method TransformPositions(t: Mat44, ps: seq<Vec3>) returns (qs: seq<Vec3>)
    requires Projectable(t, ps)
    ensures |qs| == |ps| && forall k :: 0 <= k < |ps| ==> qs[k] == Projected(t, ps[k])
  {
    qs := ps;
    for k := 0 to |ps|
      invariant |qs| == |ps|
      invariant forall j :: 0 <= j < k ==> qs[j] == Projected(t, ps[j])
      invariant forall j :: k <= j < |ps| ==> qs[j] == ps[j]
    {
      qs := qs[k := Projected(t, qs[k])];
    }
  }

  /** The range-for over `norm`: each normal multiplied by `N`. */
  method TransformNormals(m: Math, n: Mat33, ns: seq<Vec3>) returns (qs: seq<Vec3>)
    ensures |qs| == |ns| && forall k :: 0 <= k < |ns| ==> qs[k] == m.mul33(n, ns[k])
  {
    qs := ns;
    for k := 0 to |ns|
      invariant |qs| == |ns|
      invariant forall j :: 0 <= j < k ==> qs[j] == m.mul33(n, ns[j])
      invariant forall j :: k <= j < |ns| ==> qs[j] == ns[j]
    {
      qs := qs[k := m.mul33(n, qs[k])];
    }
  }

  /** Both passes of a generator, after its buffers are filled. */
  method ApplyPreTransform(m: Math, t: Mat44, pos: seq<Vec3>, norm: seq<Vec3>) returns (s: Strip)
    requires Projectable(t, pos)
    ensures s == PreTransformed(m, t, Strip(pos, norm))
  {
    var pos' := TransformPositions(t, pos);
    var n := NormalMatrix(m, t);
    var norm' := TransformNormals(m, n, norm);
    s := Strip(pos', norm');
  }

  /** An affine pre-transform (bottom row 0, 0, 0, 1) keeps w = 1, so the divide changes nothing. */
  lemma AffineProjection(t: Mat44, p: Vec3)
    requires t[12] == 0.0 && t[13] == 0.0 && t[14] == 0.0 && t[15] == 1.0
    ensures MatVec(t, Point(p))[3] == 1.0
    ensures Projected(t, p) == Xyz(MatVec(t, Point(p)))
  {
    MatVecComponents(t, Point(p));
  }

  /** Under the identity the positions stay where the generator put them. */
  lemma IdentityProjection(p: Vec3)
    ensures MatVec(Identity, Point(p))[3] == 1.0
    ensures Projected(Identity, p) == p
  {
    IdentityMatVec(Point(p));
  }

  /** Under a translation every position moves by the offset. */
  lemma TranslationProjection(d: Vec3, p: Vec3)
    ensures MatVec(Translation(d), Point(p))[3] == 1.0
    ensures Projected(Translation(d), p) == p.Add(d)
  {
    TranslationMovesPoint(d, p);
  }

  // ---------------------------------------------------------------------
  // The running write index
  // ---------------------------------------------------------------------

  /** The strips of the first `n` loop iterations, laid end to end. */
  function Joined(segs: seq<Strip>, n: nat): Strip
    requires n <= |segs|
  {
    if n == 0 then Strip([], []) else Joined(segs, n - 1).Then(segs[n - 1])
  }

  /** Every iteration writes `per` positions and `per` normals. */
  predicate Uniform(segs: seq<Strip>, per: nat)
  {
    forall i :: 0 <= i < |segs| ==> |segs[i].pos| == per && |segs[i].norm| == per
  }

  /** `n` iterations of `per` writes fill exactly `per * n` entries. */
  lemma {:induction false} JoinedSize(segs: seq<Strip>, per: nat, n: nat)
    requires Uniform(segs, per) && n <= |segs|
    ensures |Joined(segs, n).pos| == |Joined(segs, n).norm| == per * n
  {
    if n > 0 {
      JoinedSize(segs, per, n - 1);
      Grows(per, n - 1, n);
    }
  }

  /** Write `j` of iteration `i` lands at index `per * i + j`. */
  lemma {:induction false} JoinedAt(segs: seq<Strip>, per: nat, n: nat, i: nat, j: nat)
    requires Uniform(segs, per) && i < n <= |segs| && j < per
    ensures per * i + j < |Joined(segs, n).pos| && per * i + j < |Joined(segs, n).norm|
    ensures Joined(segs, n).pos[per * i + j] == segs[i].pos[j]
    ensures Joined(segs, n).norm[per * i + j] == segs[i].norm[j]
  {
    var k := per * i + j;
    var before := Joined(segs, n - 1);
    JoinedSize(segs, per, n - 1);
    JoinedSize(segs, per, n);
    if i < n - 1 {
      Grows(per, i, n - 1);
      JoinedAt(segs, per, n - 1, i, j);
      assert k < |before.pos|;
    } else {
      assert per * i == per * (n - 1);
      assert k - |before.pos| == j;
    }
  }

  /** One more iteration of `per` writes still fits in `per * n` entries. */
  lemma Grows(per: nat, i: nat, n: nat)
    requires i < n
    ensures per * i + per == per * (i + 1) <= per * n
  {
  }

  /** `norm[index] = n; pos[index++] = p;` on the preallocated vectors. */
  method Put(pos: seq<Vec3>, norm: seq<Vec3>, index: nat, p: Vec3, n: Vec3)
    returns (pos': seq<Vec3>, norm': seq<Vec3>, next: nat)
    requires index < |pos| == |norm|
    ensures next == index + 1 && |pos'| == |pos| && |norm'| == |norm|
    ensures pos'[..next] == pos[..index] + [p] && norm'[..next] == norm[..index] + [n]
  {
    norm' := norm[index := n];
    pos' := pos[index := p];
    next := index + 1;
    assert pos'[..next] == pos[..index] + [p];
    assert norm'[..next] == norm[..index] + [n];
  }

  // ---------------------------------------------------------------------
  // make_cylinder
  // ---------------------------------------------------------------------

  /** The writes of one iteration of the `make_cylinder` loop. */
  function CylinderPerIteration(capped: bool): nat
  {
    3 * (2 + (if capped then 2 else 0))
  }

  /** `numVertices` of `make_cylinder`, before the cast to `GLuint`. */
  function CylinderVertices(capped: bool, subdivs: nat): nat
  {
    CylinderPerIteration(capped) * subdivs
  }

  /** The two side triangles between ring points `prev` and `cur`. */
  function CylinderSide(prev: Vec2, cur: Vec2): Strip
  {
    Strip([Vec3(0.0, prev.x, prev.y), Vec3(1.0, prev.x, prev.y), Vec3(0.0, cur.x, cur.y),
           Vec3(0.0, cur.x, cur.y), Vec3(1.0, prev.x, prev.y), Vec3(1.0, cur.x, cur.y)],
          [Vec3(0.0, prev.x, prev.y), Vec3(0.0, prev.x, prev.y), Vec3(0.0, cur.x, cur.y),
           Vec3(0.0, cur.x, cur.y), Vec3(0.0, prev.x, prev.y), Vec3(0.0, cur.x, cur.y)])
  }

  /** The two cap triangles, at x = 0 facing -x and at x = 1 facing +x. */
  function CylinderCaps(prev: Vec2, cur: Vec2): Strip
  {
    var back := Vec3(-1.0, 0.0, 0.0);
    var front := Vec3(1.0, 0.0, 0.0);
    Strip([Vec3(0.0, 0.0, 0.0), Vec3(0.0, prev.x, prev.y), Vec3(0.0, cur.x, cur.y),
           Vec3(1.0, 0.0, 0.0), Vec3(1.0, cur.x, cur.y), Vec3(1.0, prev.x, prev.y)],
          [back, back, back, front, front, front])
  }

  /** What iteration `i` of the cylinder loop writes. */
  function CylinderSegment(m: Math, capped: bool, subdivs: nat, i: nat): Strip
    requires subdivs > 0
  {
    var prev := RingPoint(m, i, subdivs);
    var cur := RingPoint(m, i + 1, subdivs);
    if capped then CylinderSide(prev, cur).Then(CylinderCaps(prev, cur)) else CylinderSide(prev, cur)
  }

  /** The writes of all `subdivs` iterations of the cylinder loop. */
  function CylinderSegments(m: Math, capped: bool, subdivs: nat): (r: seq<Strip>)
    ensures |r| == subdivs
  {
    if subdivs == 0 then [] else seq(subdivs, i requires 0 <= i < subdivs => CylinderSegment(m, capped, subdivs, i))
  }

  /** Every iteration of the cylinder loop writes the same number of entries. */
  lemma CylinderSegmentsUniform(m: Math, capped: bool, subdivs: nat)
    ensures Uniform(CylinderSegments(m, capped, subdivs), CylinderPerIteration(capped))
  {
  }

  /** Iteration `i` of the cylinder writes the sides, then (if capped) the caps, between ring points `i` and `i + 1`. */
  lemma CylinderSegmentsAt(m: Math, capped: bool, subdivs: nat, i: nat)
    requires i < subdivs
    ensures var prev := RingPoint(m, i, subdivs);
      var cur := RingPoint(m, i + 1, subdivs);
      CylinderSegments(m, capped, subdivs)[i] ==
        if capped then CylinderSide(prev, cur).Then(CylinderCaps(prev, cur)) else CylinderSide(prev, cur)
  {
  }

  method PutCylinderSide(pos: seq<Vec3>, norm: seq<Vec3>, index: nat, prev: Vec2, cur: Vec2)
    returns (pos': seq<Vec3>, norm': seq<Vec3>, next: nat)
    requires index + 6 <= |pos| == |norm|
    ensures next == index + 6 && |pos'| == |pos| && |norm'| == |norm|
    ensures pos'[..next] == pos[..index] + CylinderSide(prev, cur).pos
    ensures norm'[..next] == norm[..index] + CylinderSide(prev, cur).norm
  {
    var y, z, prevY, prevZ := cur.x, cur.y, prev.x, prev.y;
    pos', norm', next := Put(pos, norm, index, Vec3(0.0, prevY, prevZ), Vec3(0.0, prevY, prevZ));
    pos', norm', next := Put(pos', norm', next, Vec3(1.0, prevY, prevZ), Vec3(0.0, prevY, prevZ));
    pos', norm', next := Put(pos', norm', next, Vec3(0.0, y, z), Vec3(0.0, y, z));
    pos', norm', next := Put(pos', norm', next, Vec3(0.0, y, z), Vec3(0.0, y, z));
    pos', norm', next := Put(pos', norm', next, Vec3(1.0, prevY, prevZ), Vec3(0.0, prevY, prevZ));
    pos', norm', next := Put(pos', norm', next, Vec3(1.0, y, z), Vec3(0.0, y, z));
  }

  method PutCylinderCaps(pos: seq<Vec3>, norm: seq<Vec3>, index: nat, prev: Vec2, cur: Vec2)
    returns (pos': seq<Vec3>, norm': seq<Vec3>, next: nat)
    requires index + 6 <= |pos| == |norm|
    ensures next == index + 6 && |pos'| == |pos| && |norm'| == |norm|
    ensures pos'[..next] == pos[..index] + CylinderCaps(prev, cur).pos
    ensures norm'[..next] == norm[..index] + CylinderCaps(prev, cur).norm
  {
    var y, z, prevY, prevZ := cur.x, cur.y, prev.x, prev.y;
    pos', norm', next := Put(pos, norm, index, Vec3(0.0, 0.0, 0.0), Vec3(-1.0, 0.0, 0.0));
    pos', norm', next := Put(pos', norm', next, Vec3(0.0, prevY, prevZ), Vec3(-1.0, 0.0, 0.0));
    pos', norm', next := Put(pos', norm', next, Vec3(0.0, y, z), Vec3(-1.0, 0.0, 0.0));
    pos', norm', next := Put(pos', norm', next, Vec3(1.0, 0.0, 0.0), Vec3(1.0, 0.0, 0.0));
    pos', norm', next := Put(pos', norm', next, Vec3(1.0, y, z), Vec3(1.0, 0.0, 0.0));
    pos', norm', next := Put(pos', norm', next, Vec3(1.0, prevY, prevZ), Vec3(1.0, 0.0, 0.0));
  }

  /**
   * `make_cylinder`: `numVertices` entries are allocated, iteration `i`
   * writes its side (and cap) triangles at the running index, the index
   * ends exactly at `numVertices`, both buffers go through the pre-transform
   * passes, and the colour lists are `numVertices` copies of the arguments.
   */
  method MakeCylinder(m: Math, capped: bool, subdivs: nat, preTransform: Mat44,
                      ambient: Vec3, diffuse: Vec3, specular: Vec3, shininess: real, emissive: Vec3)
    returns (r: MeshData)
    requires subdivs < GLuintLimit && CylinderVertices(capped, subdivs) < GLuintLimit
    requires Projectable(preTransform, Joined(CylinderSegments(m, capped, subdivs), subdivs).pos)
    ensures |r.positions| == |r.normals| == CylinderVertices(capped, subdivs)
    ensures var raw := Joined(CylinderSegments(m, capped, subdivs), subdivs);
      r == ColouredMesh(PreTransformed(m, preTransform, raw), ambient, diffuse, specular, shininess, emissive)
  {
    var pos, norm := CylinderBuffers(m, capped, subdivs);
    var s := ApplyPreTransform(m, preTransform, pos, norm);
    r := ColouredMesh(s, ambient, diffuse, specular, shininess, emissive);
  }

  /** The loop of `make_cylinder` filling the `pos` and `norm` vectors through the running index. */
  method CylinderBuffers(m: Math, capped: bool, subdivs: nat) returns (pos: seq<Vec3>, norm: seq<Vec3>)
    ensures |pos| == |norm| == CylinderVertices(capped, subdivs)
    ensures Strip(pos, norm) == Joined(CylinderSegments(m, capped, subdivs), subdivs)
  {
    var numVertices := CylinderVertices(capped, subdivs);
    pos := seq(numVertices, _ => Vec3(0.0, 0.0, 0.0));
    norm := seq(numVertices, _ => Vec3(0.0, 0.0, 0.0));
    ghost var per := CylinderPerIteration(capped);
    ghost var segs := CylinderSegments(m, capped, subdivs);
    var prev := Vec2(m.sin(0.0), m.cos(0.0));
    var index: nat := 0;
    for i := 0 to subdivs
      invariant |pos| == |norm| == numVertices
      invariant index <= numVertices
      invariant pos[..index] == Joined(segs, i).pos && norm[..index] == Joined(segs, i).norm
      invariant subdivs > 0 ==> prev == RingPoint(m, i, subdivs)
    {
      pos, norm, index, prev := CylinderStep(m, capped, subdivs, i, pos, norm, index, prev);
    }
    assert index == numVertices by {
      CylinderSegmentsUniform(m, capped, subdivs);
      JoinedSize(segs, per, subdivs);
    }
    assert pos == pos[..index] && norm == norm[..index];
  }

  /** Iteration `i` of the `make_cylinder` loop extends the writes of the first `i` iterations by segment `i`. */
  method CylinderStep(m: Math, capped: bool, subdivs: nat, i: nat,
                      pos: seq<Vec3>, norm: seq<Vec3>, index: nat, prev: Vec2)
    returns (pos': seq<Vec3>, norm': seq<Vec3>, index': nat, cur: Vec2)
    requires i < subdivs && |pos| == |norm| == CylinderVertices(capped, subdivs)
    requires index <= |pos|
    requires var done := Joined(CylinderSegments(m, capped, subdivs), i);
      pos[..index] == done.pos && norm[..index] == done.norm
    requires prev == RingPoint(m, i, subdivs)
    ensures |pos'| == |pos| && |norm'| == |norm|
    ensures index' <= |pos|
    ensures var done := Joined(CylinderSegments(m, capped, subdivs), i + 1);
      pos'[..index'] == done.pos && norm'[..index'] == done.norm
    ensures cur == RingPoint(m, i + 1, subdivs)
  {
    ghost var segs := CylinderSegments(m, capped, subdivs);
    assert index + CylinderPerIteration(capped) <= |pos| by {
      CylinderSegmentsUniform(m, capped, subdivs);
      JoinedSize(segs, CylinderPerIteration(capped), i);
      Grows(CylinderPerIteration(capped), i, subdivs);
    }
    CylinderSegmentsAt(m, capped, subdivs, i);
    pos', norm', index', cur := CylinderIteration(m, capped, subdivs, i, pos, norm, index, prev, Joined(segs, i));
  }

  /** One iteration of the cylinder loop: the side triangles, then the caps if `capped`. */
  method CylinderIteration(m: Math, capped: bool, subdivs: nat, i: nat,
                           pos: seq<Vec3>, norm: seq<Vec3>, index: nat, prev: Vec2, ghost before: Strip)
    returns (pos': seq<Vec3>, norm': seq<Vec3>, index': nat, cur: Vec2)
    requires i < subdivs && |pos| == |norm| && index + CylinderPerIteration(capped) <= |pos|
    requires pos[..index] == before.pos && norm[..index] == before.norm
    requires prev == RingPoint(m, i, subdivs)
    ensures |pos'| == |pos| && |norm'| == |norm|
    ensures index' == index + CylinderPerIteration(capped)
    ensures var after := before.Then(CylinderSegment(m, capped, subdivs, i));
      pos'[..index'] == after.pos && norm'[..index'] == after.norm
    ensures cur == RingPoint(m, i + 1, subdivs)
  {
    cur := RingPoint(m, i + 1, subdivs);
    pos', norm', index' := PutCylinderSide(pos, norm, index, prev, cur);
    if capped {
      pos', norm', index' := PutCylinderCaps(pos', norm', index', prev, cur);
    }
  }

  // ---------------------------------------------------------------------
  // make_cone
  // ---------------------------------------------------------------------

  /** The writes of one iteration of the `make_cone` loop. */
  function ConePerIteration(capped: bool): nat
  {
    3 * (1 + (if capped then 1 else 0))
  }

  /** `numVertices` of `make_cone`, before the cast to `GLuint`. */
  function ConeVertices(capped: bool, subdivs: nat): nat
  {
    ConePerIteration(capped) * subdivs
  }

  /**
   * The slanted triangle from the tip (1, 0, 0) to ring points `cur` and
   * `prev`; the tip's normal leans from +x towards the middle of the edge.
   */
  function ConeSide(m: Math, prev: Vec2, cur: Vec2): Strip
  {
    var tip := m.normalize(Vec3(1.0, 0.0, 0.0).Add(
                 m.normalize(Vec3(0.0, (prev.x + cur.x) / 2.0, (prev.y + cur.y) / 2.0))));
    Strip([Vec3(1.0, 0.0, 0.0), Vec3(0.0, cur.x, cur.y), Vec3(0.0, prev.x, prev.y)],
          [tip, m.normalize(Vec3(1.0, cur.x, cur.y)), m.normalize(Vec3(1.0, prev.x, prev.y))])
  }

  /** The base triangle at x = 0, facing -x. */
  function ConeCap(prev: Vec2, cur: Vec2): Strip
  {
    var back := Vec3(-1.0, 0.0, 0.0);
    Strip([Vec3(0.0, 0.0, 0.0), Vec3(0.0, prev.x, prev.y), Vec3(0.0, cur.x, cur.y)], [back, back, back])
  }

  /** What iteration `i` of the cone loop writes. */
  function ConeSegment(m: Math, capped: bool, subdivs: nat, i: nat): Strip
    requires subdivs > 0
  {
    var prev := RingPoint(m, i, subdivs);
    var cur := RingPoint(m, i + 1, subdivs);
    if capped then ConeSide(m, prev, cur).Then(ConeCap(prev, cur)) else ConeSide(m, prev, cur)
  }

  /** The writes of all `subdivs` iterations of the cone loop. */
  function ConeSegments(m: Math, capped: bool, subdivs: nat): (r: seq<Strip>)
    ensures |r| == subdivs
  {
    if subdivs == 0 then [] else seq(subdivs, i requires 0 <= i < subdivs => ConeSegment(m, capped, subdivs, i))
  }

  /** Every iteration of the cone loop writes the same number of entries. */
  lemma ConeSegmentsUniform(m: Math, capped: bool, subdivs: nat)
    ensures Uniform(ConeSegments(m, capped, subdivs), ConePerIteration(capped))
  {
  }

  /** Iteration `i` of the cone writes the slanted triangle, then (if capped) the base triangle, between ring points `i` and `i + 1`. */
  lemma ConeSegmentsAt(m: Math, capped: bool, subdivs: nat, i: nat)
    requires i < subdivs
    ensures var prev := RingPoint(m, i, subdivs);
      var cur := RingPoint(m, i + 1, subdivs);
      ConeSegments(m, capped, subdivs)[i] ==
        if capped then ConeSide(m, prev, cur).Then(ConeCap(prev, cur)) else ConeSide(m, prev, cur)
  {
  }

  method PutConeSide(m: Math, pos: seq<Vec3>, norm: seq<Vec3>, index: nat, prev: Vec2, cur: Vec2)
    returns (pos': seq<Vec3>, norm': seq<Vec3>, next: nat)
    requires index + 3 <= |pos| == |norm|
    ensures next == index + 3 && |pos'| == |pos| && |norm'| == |norm|
    ensures pos'[..next] == pos[..index] + ConeSide(m, prev, cur).pos
    ensures norm'[..next] == norm[..index] + ConeSide(m, prev, cur).norm
  {
    var y, z, prevY, prevZ := cur.x, cur.y, prev.x, prev.y;
    var tip := m.normalize(Vec3(1.0, 0.0, 0.0).Add(m.normalize(Vec3(0.0, (prevY + y) / 2.0, (prevZ + z) / 2.0))));
    pos', norm', next := Put(pos, norm, index, Vec3(1.0, 0.0, 0.0), tip);
    pos', norm', next := Put(pos', norm', next, Vec3(0.0, y, z), m.normalize(Vec3(1.0, y, z)));
    pos', norm', next := Put(pos', norm', next, Vec3(0.0, prevY, prevZ), m.normalize(Vec3(1.0, prevY, prevZ)));
  }

  method PutConeCap(pos: seq<Vec3>, norm: seq<Vec3>, index: nat, prev: Vec2, cur: Vec2)
    returns (pos': seq<Vec3>, norm': seq<Vec3>, next: nat)
    requires index + 3 <= |pos| == |norm|
    ensures next == index + 3 && |pos'| == |pos| && |norm'| == |norm|
    ensures pos'[..next] == pos[..index] + ConeCap(prev, cur).pos
    ensures norm'[..next] == norm[..index] + ConeCap(prev, cur).norm
  {
    var y, z, prevY, prevZ := cur.x, cur.y, prev.x, prev.y;
    pos', norm', next := Put(pos, norm, index, Vec3(0.0, 0.0, 0.0), Vec3(-1.0, 0.0, 0.0));
    pos', norm', next := Put(pos', norm', next, Vec3(0.0, prevY, prevZ), Vec3(-1.0, 0.0, 0.0));
    pos', norm', next := Put(pos', norm', next, Vec3(0.0, y, z), Vec3(-1.0, 0.0, 0.0));
  }

  /**
   * `make_cone`: 3 vertices per iteration, 6 when capped, the index ending
   * exactly at `numVertices`, then the pre-transform passes.
   */
  method MakeCone(m: Math, capped: bool, subdivs: nat, preTransform: Mat44,
                  ambient: Vec3, diffuse: Vec3, specular: Vec3, shininess: real, emissive: Vec3)
    returns (r: MeshData)
    requires subdivs < GLuintLimit && ConeVertices(capped, subdivs) < GLuintLimit
    requires Projectable(preTransform, Joined(ConeSegments(m, capped, subdivs), subdivs).pos)
    ensures |r.positions| == |r.normals| == ConeVertices(capped, subdivs)
    ensures var raw := Joined(ConeSegments(m, capped, subdivs), subdivs);
      r == ColouredMesh(PreTransformed(m, preTransform, raw), ambient, diffuse, specular, shininess, emissive)
  {
    var pos, norm := ConeBuffers(m, capped, subdivs);
    var s := ApplyPreTransform(m, preTransform, pos, norm);
    r := ColouredMesh(s, ambient, diffuse, specular, shininess, emissive);
  }

  /** The loop of `make_cone` filling the `pos` and `norm` vectors through the running index. */
  method ConeBuffers(m: Math, capped: bool, subdivs: nat) returns (pos: seq<Vec3>, norm: seq<Vec3>)
    ensures |pos| == |norm| == ConeVertices(capped, subdivs)
    ensures Strip(pos, norm) == Joined(ConeSegments(m, capped, subdivs), subdivs)
  {
    var numVertices := ConeVertices(capped, subdivs);
    pos := seq(numVertices, _ => Vec3(0.0, 0.0, 0.0));
    norm := seq(numVertices, _ => Vec3(0.0, 0.0, 0.0));
    ghost var per := ConePerIteration(capped);
    ghost var segs := ConeSegments(m, capped, subdivs);
    var prev := Vec2(m.sin(0.0), m.cos(0.0));
    var index: nat := 0;
    for i := 0 to subdivs
      invariant |pos| == |norm| == numVertices
      invariant index <= numVertices
      invariant pos[..index] == Joined(segs, i).pos && norm[..index] == Joined(segs, i).norm
      invariant subdivs > 0 ==> prev == RingPoint(m, i, subdivs)
    {
      pos, norm, index, prev := ConeStep(m, capped, subdivs, i, pos, norm, index, prev);
    }
    assert index == numVertices by {
      ConeSegmentsUniform(m, capped, subdivs);
      JoinedSize(segs, per, subdivs);
    }
    assert pos == pos[..index] && norm == norm[..index];
  }

  /** Iteration `i` of the `make_cone` loop extends the writes of the first `i` iterations by segment `i`. */
  method ConeStep(m: Math, capped: bool, subdivs: nat, i: nat,
                      pos: seq<Vec3>, norm: seq<Vec3>, index: nat, prev: Vec2)
    returns (pos': seq<Vec3>, norm': seq<Vec3>, index': nat, cur: Vec2)
    requires i < subdivs && |pos| == |norm| == ConeVertices(capped, subdivs)
    requires index <= |pos|
    requires var done := Joined(ConeSegments(m, capped, subdivs), i);
      pos[..index] == done.pos && norm[..index] == done.norm
    requires prev == RingPoint(m, i, subdivs)
    ensures |pos'| == |pos| && |norm'| == |norm|
    ensures index' <= |pos|
    ensures var done := Joined(ConeSegments(m, capped, subdivs), i + 1);
      pos'[..index'] == done.pos && norm'[..index'] == done.norm
    ensures cur == RingPoint(m, i + 1, subdivs)
  {
    ghost var segs := ConeSegments(m, capped, subdivs);
    assert index + ConePerIteration(capped) <= |pos| by {
      ConeSegmentsUniform(m, capped, subdivs);
      JoinedSize(segs, ConePerIteration(capped), i);
      Grows(ConePerIteration(capped), i, subdivs);
    }
    ConeSegmentsAt(m, capped, subdivs, i);
    pos', norm', index', cur := ConeIteration(m, capped, subdivs, i, pos, norm, index, prev, Joined(segs, i));
  }

  /** One iteration of the cone loop. */
  method ConeIteration(m: Math, capped: bool, subdivs: nat, i: nat,
                       pos: seq<Vec3>, norm: seq<Vec3>, index: nat, prev: Vec2, ghost before: Strip)
    returns (pos': seq<Vec3>, norm': seq<Vec3>, index': nat, cur: Vec2)
    requires i < subdivs && |pos| == |norm| && index + ConePerIteration(capped) <= |pos|
    requires pos[..index] == before.pos && norm[..index] == before.norm
    requires prev == RingPoint(m, i, subdivs)
    ensures |pos'| == |pos| && |norm'| == |norm|
    ensures index' == index + ConePerIteration(capped)
    ensures var after := before.Then(ConeSegment(m, capped, subdivs, i));
      pos'[..index'] == after.pos && norm'[..index'] == after.norm
    ensures cur == RingPoint(m, i + 1, subdivs)
  {
    cur := RingPoint(m, i + 1, subdivs);
    pos', norm', index' := PutConeSide(m, pos, norm, index, prev, cur);
    if capped {
      pos', norm', index' := PutConeCap(pos', norm', index', prev, cur);
    }
  }

  // ---------------------------------------------------------------------
  // make_sphere
  // ---------------------------------------------------------------------

  /** A triangle as three indices into the point list (`std::array<std::size_t, 3>`). */
  type Face = f: seq<nat> | |f| == 3 witness [0, 0, 0]

  /** Every index of every face is below `n`. */
  predicate FacesIn(faces: seq<Face>, n: nat)
  {
    forall j, e :: 0 <= j < |faces| && 0 <= e < 3 ==> faces[j][e] < n
  }

  /** The point list and face list of the sphere under construction. */
  datatype Icosphere = Icosphere(points: seq<Vec3>, faces: seq<Face>)
  {
    predicate Valid() { FacesIn(faces, |points|) }
  }

  /** The golden ratio `phi = (1 + sqrt 5) / 2`. */
  function Phi(m: Math): real
  {
    (1.0 + m.sqrt(5.0)) * 0.5
  }

  /** `1 + 1 / phi^2`, the square of the scale that puts the corners on the unit sphere. */
  function CornerRadiusSquared(m: Math): real
    requires Phi(m) != 0.0
  {
    1.0 + 1.0 / (Phi(m) * Phi(m))
  }

  /** sqrt 5 and the normalising root are such that `phi` and `a` are defined. */
  predicate IcosahedronDefined(m: Math)
  {
    Phi(m) != 0.0 && m.sqrt(CornerRadiusSquared(m)) != 0.0
  }

  /** The twelve corners of the starting icosahedron, built from `a` and `b = a / phi`. */
  function IcosahedronPoints(m: Math): seq<Vec3>
    requires IcosahedronDefined(m)
  {
    var a := 1.0 / m.sqrt(CornerRadiusSquared(m));
    var b := a / Phi(m);
    [Vec3(0.0, b, -a), Vec3(b, a, 0.0), Vec3(-b, a, 0.0),
     Vec3(0.0, b, a), Vec3(0.0, -b, a), Vec3(-a, 0.0, b),
     Vec3(0.0, -b, -a), Vec3(a, 0.0, -b), Vec3(a, 0.0, b),
     Vec3(-a, 0.0, -b), Vec3(b, -a, 0.0), Vec3(-b, -a, 0.0)]
  }

  /** The twenty faces of the starting icosahedron. */
  const IcosahedronFaces: seq<Face> :=
    [[2, 1, 0], [1, 2, 3], [5, 4, 3], [4, 8, 3], [7, 6, 0],
     [6, 9, 0], [11, 10, 4], [10, 11, 6], [9, 5, 2], [5, 9, 11],
     [8, 7, 1], [7, 8, 10], [2, 5, 3], [8, 1, 3], [9, 2, 0],
     [1, 7, 0], [11, 9, 6], [7, 10, 6], [5, 11, 4], [10, 8, 4]]

  function Icosahedron(m: Math): (s: Icosphere)
    requires IcosahedronDefined(m)
    ensures |s.points| == 12 && |s.faces| == 20 && s.Valid()
  {
    Icosphere(IcosahedronPoints(m), IcosahedronFaces)
  }

  /** The midpoint of `u` and `v`, pushed back onto the unit sphere. */
  function Midpoint(m: Math, u: Vec3, v: Vec3): Vec3
  {
    m.normalize(Vec3((u.x + v.x) / 2.0, (u.y + v.y) / 2.0, (u.z + v.z) / 2.0))
  }

  /** The three edge midpoints of face `f`, in the order v0-v1, v1-v2, v2-v0. */
  function EdgeMidpoints(m: Math, points: seq<Vec3>, f: Face): seq<Vec3>
    requires f[0] < |points| && f[1] < |points| && f[2] < |points|
  {
    var v0, v1, v2 := points[f[0]], points[f[1]], points[f[2]];
    [Midpoint(m, v0, v1), Midpoint(m, v1, v2), Midpoint(m, v2, v0)]
  }

  /** The points one subdivision pass appends for `faces`, three per face. */
  function Midpoints(m: Math, points: seq<Vec3>, faces: seq<Face>): seq<Vec3>
    requires FacesIn(faces, |points|)
  {
    if faces == [] then []
    else
      var n := |faces| - 1;
      assert FacesIn(faces[..n], |points|) by {
        assert forall j :: 0 <= j < n ==> faces[..n][j] == faces[j];
      }
      Midpoints(m, points, faces[..n]) + EdgeMidpoints(m, points, faces[n])
  }

  /**
   * The four faces that replace `f` when its midpoints sit at `p`, `p + 1`
   * and `p + 2`: one at each corner of `f`, and the middle one.
   */
  function Quartered(f: Face, p: nat): seq<Face>
  {
    [[f[0], p, p + 2], [f[1], p + 1, p], [f[2], p + 2, p + 1], [p, p + 1, p + 2]]
  }

  /** The faces one pass builds, when the midpoints are appended after `base` points. */
  function SplitFaces(faces: seq<Face>, base: nat): seq<Face>
  {
    if faces == [] then []
    else
      var n := |faces| - 1;
      SplitFaces(faces[..n], base) + Quartered(faces[n], base + 3 * n)
  }

  /** One pass of the subdivision loop. */
  function Subdivided(m: Math, s: Icosphere): Icosphere
    requires s.Valid()
  {
    Icosphere(s.points + Midpoints(m, s.points, s.faces), SplitFaces(s.faces, |s.points|))
  }

  lemma {:induction false} MidpointsSize(m: Math, points: seq<Vec3>, faces: seq<Face>)
    requires FacesIn(faces, |points|)
    ensures |Midpoints(m, points, faces)| == 3 * |faces|
  {
    if faces != [] {
      var n := |faces| - 1;
      assert FacesIn(faces[..n], |points|) by {
        assert forall j :: 0 <= j < n ==> faces[..n][j] == faces[j];
      }
      MidpointsSize(m, points, faces[..n]);
    }
  }

  /**
   * The faces one pass builds: four per old face, each index either an
   * old index (below `base`) or one of the new midpoints (below
   * `base + 3 * |faces|`).
   */
  lemma {:induction false} SplitFacesIn(faces: seq<Face>, base: nat)
    requires FacesIn(faces, base)
    ensures |SplitFaces(faces, base)| == 4 * |faces|
    ensures FacesIn(SplitFaces(faces, base), base + 3 * |faces|)
  {
    if faces != [] {
      var n := |faces| - 1;
      assert FacesIn(faces[..n], base) by {
        assert forall j :: 0 <= j < n ==> faces[..n][j] == faces[j];
      }
      SplitFacesIn(faces[..n], base);
      var q := Quartered(faces[n], base + 3 * n);
      var all := SplitFaces(faces, base);
      assert all == SplitFaces(faces[..n], base) + q;
      forall j, e | 0 <= j < |all| && 0 <= e < 3
        ensures all[j][e] < base + 3 * |faces|
      {
        if j >= 4 * n {
          assert all[j] == q[j - 4 * n];
        } else {
          assert all[j] == SplitFaces(faces[..n], base)[j];
        }
      }
    }
  }

  /** A pass keeps every face index in range, and fixes the new sizes. */
  lemma SubdividedValid(m: Math, s: Icosphere)
    requires s.Valid()
    ensures var t := Subdivided(m, s);
      t.Valid() && |t.faces| == 4 * |s.faces| && |t.points| == |s.points| + 3 * |s.faces|
  {
    MidpointsSize(m, s.points, s.faces);
    SplitFacesIn(s.faces, |s.points|);
  }

  function Pow4(n: nat): nat
  {
    if n == 0 then 1 else 4 * Pow4(n - 1)
  }

  /**
   * The sphere after `n` passes: `20 * 4^n` faces, `20 * 4^n - 8` points
   * (the 12 corners plus three per face of every earlier pass), and every
   * face index in range.
   */
  function Subdivisions(m: Math, n: nat): (s: Icosphere)
    requires IcosahedronDefined(m)
    ensures s.Valid()
    ensures |s.faces| == 20 * Pow4(n) && |s.points| + 8 == 20 * Pow4(n)
  {
    if n == 0 then Icosahedron(m)
    else
      var s := Subdivisions(m, n - 1);
      SubdividedValid(m, s);
      Subdivided(m, s)
  }

  /** The triangle soup: the three corners of each face in turn. */
  function Soup(points: seq<Vec3>, faces: seq<Face>): seq<Vec3>
    requires FacesIn(faces, |points|)
  {
    if faces == [] then []
    else
      var n := |faces| - 1;
      assert FacesIn(faces[..n], |points|) by {
        assert forall j :: 0 <= j < n ==> faces[..n][j] == faces[j];
      }
      Soup(points, faces[..n]) + [points[faces[n][0]], points[faces[n][1]], points[faces[n][2]]]
  }

  /** The soup of the sphere after `n` passes, before the pre-transform. */
  function SphereCorners(m: Math, n: nat): seq<Vec3>
    requires IcosahedronDefined(m)
  {
    var s := Subdivisions(m, n);
    Soup(s.points, s.faces)
  }

  /** Vertex `k` of the soup is corner `k % 3` of face `k / 3`. */
  lemma {:induction false} SoupAt(points: seq<Vec3>, faces: seq<Face>, k: nat)
    requires FacesIn(faces, |points|) && k < 3 * |faces|
    ensures |Soup(points, faces)| == 3 * |faces|
    ensures Soup(points, faces)[k] == points[faces[k / 3][k % 3]]
  {
    var n := |faces| - 1;
    assert FacesIn(faces[..n], |points|) by {
      assert forall j :: 0 <= j < n ==> faces[..n][j] == faces[j];
    }
    if k < 3 * n {
      SoupAt(points, faces[..n], k);
      assert faces[..n][k / 3] == faces[k / 3];
    } else {
      SoupSize(points, faces[..n]);
      assert k / 3 == n;
    }
  }

  lemma {:induction false} SoupSize(points: seq<Vec3>, faces: seq<Face>)
    requires FacesIn(faces, |points|)
    ensures |Soup(points, faces)| == 3 * |faces|
  {
    if faces != [] {
      var n := |faces| - 1;
      assert FacesIn(faces[..n], |points|) by {
        assert forall j :: 0 <= j < n ==> faces[..n][j] == faces[j];
      }
      SoupSize(points, faces[..n]);
    }
  }

  /** `faces[..j]` keeps the bound of `faces`. */
  lemma FacesInPrefix(faces: seq<Face>, n: nat, j: nat)
    requires FacesIn(faces, n) && j <= |faces|
    ensures FacesIn(faces[..j], n)
  {
    assert forall i :: 0 <= i < j ==> faces[..j][i] == faces[i];
  }

  /**
   * The body of the face loop of one pass: the three midpoints of `f`
   * are written at `pointIndex` and its four faces at `faceIndex`.
   */
  method SplitFace(m: Math, points: seq<Vec3>, newFaces: seq<Face>, pointIndex: nat, faceIndex: nat, f: Face)
    returns (points': seq<Vec3>, newFaces': seq<Face>, pointIndex': nat, faceIndex': nat)
    requires f[0] < pointIndex && f[1] < pointIndex && f[2] < pointIndex
    requires pointIndex + 3 <= |points| && faceIndex + 4 <= |newFaces|
    ensures |points'| == |points| && |newFaces'| == |newFaces|
    ensures pointIndex' == pointIndex + 3 && faceIndex' == faceIndex + 4
    ensures points'[..pointIndex'] == points[..pointIndex] + EdgeMidpoints(m, points, f)
    ensures newFaces'[..faceIndex'] == newFaces[..faceIndex] + Quartered(f, pointIndex)
  {
    var v0, v1, v2 := points[f[0]], points[f[1]], points[f[2]];
    points' := points[pointIndex := Midpoint(m, v0, v1)];
    points' := points'[pointIndex + 1 := Midpoint(m, v1, v2)];
    points' := points'[pointIndex + 2 := Midpoint(m, v2, v0)];
    pointIndex' := pointIndex + 3;
    assert points'[..pointIndex'] == points[..pointIndex] + EdgeMidpoints(m, points, f);
    newFaces' := newFaces[faceIndex := [f[0], pointIndex' - 3, pointIndex' - 1]];
    newFaces' := newFaces'[faceIndex + 1 := [f[1], pointIndex' - 2, pointIndex' - 3]];
    newFaces' := newFaces'[faceIndex + 2 := [f[2], pointIndex' - 1, pointIndex' - 2]];
    newFaces' := newFaces'[faceIndex + 3 := [pointIndex' - 3, pointIndex' - 2, pointIndex' - 1]];
    faceIndex' := faceIndex + 4;
    assert newFaces'[..faceIndex'] == newFaces[..faceIndex] + Quartered(f, pointIndex);
  }

  /** The midpoints of `faces[..j + 1]` extend those of `faces[..j]` by face `j`'s. */
  lemma MidpointsStep(m: Math, points: seq<Vec3>, faces: seq<Face>, j: nat)
    requires FacesIn(faces, |points|) && j < |faces|
    ensures FacesIn(faces[..j], |points|) && FacesIn(faces[..j + 1], |points|)
    ensures Midpoints(m, points, faces[..j + 1]) == Midpoints(m, points, faces[..j]) + EdgeMidpoints(m, points, faces[j])
  {
    FacesInPrefix(faces, |points|, j);
    FacesInPrefix(faces, |points|, j + 1);
    assert faces[..j + 1][..j] == faces[..j];
  }

  /** The split faces of `faces[..j + 1]` extend those of `faces[..j]` by face `j`'s quarters. */
  lemma SplitFacesStep(faces: seq<Face>, base: nat, j: nat)
    requires j < |faces|
    ensures SplitFaces(faces[..j + 1], base) == SplitFaces(faces[..j], base) + Quartered(faces[j], base + 3 * j)
  {
    assert faces[..j + 1][..j] == faces[..j];
  }

  /** The body of the face loop of one pass, as a step from face `j` to face `j + 1`. */
  method SubdivisionStep(m: Math, points: seq<Vec3>, faces: seq<Face>, j: nat,
                         cur: seq<Vec3>, newFaces: seq<Face>, pointIndex: nat, faceIndex: nat)
    returns (cur': seq<Vec3>, newFaces': seq<Face>, pointIndex': nat, faceIndex': nat)
    requires FacesIn(faces, |points|) && j < |faces|
    requires pointIndex == |points| + 3 * j && faceIndex == 4 * j
    requires |cur| == |points| + 3 * |faces| && |newFaces| == 4 * |faces|
    requires FacesIn(faces[..j], |points|)
    requires cur[..pointIndex] == points + Midpoints(m, points, faces[..j])
    requires newFaces[..faceIndex] == SplitFaces(faces[..j], |points|)
    ensures pointIndex' == |points| + 3 * (j + 1) && faceIndex' == 4 * (j + 1)
    ensures |cur'| == |cur| && |newFaces'| == |newFaces|
    ensures FacesIn(faces[..j + 1], |points|)
    ensures cur'[..pointIndex'] == points + Midpoints(m, points, faces[..j + 1])
    ensures newFaces'[..faceIndex'] == SplitFaces(faces[..j + 1], |points|)
  {
    var f := faces[j];
    MidpointsStep(m, points, faces, j);
    SplitFacesStep(faces, |points|, j);
    assert EdgeMidpoints(m, cur, f) == EdgeMidpoints(m, points, f) by {
      assert cur[f[0]] == cur[..pointIndex][f[0]] == points[f[0]];
      assert cur[f[1]] == cur[..pointIndex][f[1]] == points[f[1]];
      assert cur[f[2]] == cur[..pointIndex][f[2]] == points[f[2]];
    }
    cur', newFaces', pointIndex', faceIndex' := SplitFace(m, cur, newFaces, pointIndex, faceIndex, f);
  }

  /**
   * One pass of the subdivision loop of `make_sphere`: `points` grows by
   * three entries per face, and every face is replaced by four.
   */
  method SubdivisionPass(m: Math, points: seq<Vec3>, faces: seq<Face>)
    returns (points': seq<Vec3>, faces': seq<Face>)
    requires FacesIn(faces, |points|)
    ensures Icosphere(points', faces') == Subdivided(m, Icosphere(points, faces))
  {
    var base := |points|;
    var pointIndex: nat := base;
    var faceIndex: nat := 0;
    var newFaces: seq<Face> := seq(|faces| * 4, _ => [0, 0, 0]);
    points' := points + seq(|faces| * 3, _ => Vec3(0.0, 0.0, 0.0));
    for j := 0 to |faces|
      invariant pointIndex == base + 3 * j && faceIndex == 4 * j
      invariant |points'| == base + 3 * |faces| && |newFaces| == 4 * |faces|
      invariant FacesIn(faces[..j], base)
      invariant points'[..pointIndex] == points + Midpoints(m, points, faces[..j])
      invariant newFaces[..faceIndex] == SplitFaces(faces[..j], base)
    {
      points', newFaces, pointIndex, faceIndex :=
        SubdivisionStep(m, points, faces, j, points', newFaces, pointIndex, faceIndex);
    }
    assert faces[..|faces|] == faces;
    assert points' == points'[..pointIndex];
    assert newFaces == newFaces[..faceIndex];
    faces' := newFaces;
  }

  /** The soup loop of `make_sphere`: three vertices per face, at the running index. */
  method SphereSoup(points: seq<Vec3>, faces: seq<Face>) returns (pos: seq<Vec3>)
    requires FacesIn(faces, |points|)
    ensures pos == Soup(points, faces)
  {
    var numVertices := 3 * |faces|;
    pos := seq(numVertices, _ => Vec3(0.0, 0.0, 0.0));
    var index: nat := 0;
    for j := 0 to |faces|
      invariant index == 3 * j && |pos| == numVertices
      invariant FacesIn(faces[..j], |points|)
      invariant pos[..index] == Soup(points, faces[..j])
    {
      var f := faces[j];
      assert faces[..j + 1][..j] == faces[..j];
      FacesInPrefix(faces, |points|, j + 1);
      ghost var before := pos[..index];
      pos := pos[index := points[f[0]]];
      index := index + 1;
      pos := pos[index := points[f[1]]];
      index := index + 1;
      pos := pos[index := points[f[2]]];
      index := index + 1;
      assert pos[..index] == before + [points[f[0]], points[f[1]], points[f[2]]];
    }
    assert faces[..|faces|] == faces;
    assert pos == pos[..index];
  }

  /**
   * `make_sphere`: `subdivLoops` passes over the icosahedron, then one
   * vertex per face corner, vertex `k` being corner `k % 3` of face `k / 3`;
   * the normals start as a copy of the positions, and then both go through
   * the pre-transform passes.
   */
  method MakeSphere(m: Math, subdivLoops: nat, preTransform: Mat44,
                    ambient: Vec3, diffuse: Vec3, specular: Vec3, shininess: real, emissive: Vec3)
    returns (r: MeshData)
    requires IcosahedronDefined(m)
    requires Projectable(preTransform, SphereCorners(m, subdivLoops))
    ensures var s := Subdivisions(m, subdivLoops);
      var soup := SphereCorners(m, subdivLoops);
      && |soup| == 3 * |s.faces| == 60 * Pow4(subdivLoops)
      && (forall k :: 0 <= k < |soup| ==> soup[k] == s.points[s.faces[k / 3][k % 3]])
      && r == ColouredMesh(PreTransformed(m, preTransform, Strip(soup, soup)), ambient, diffuse, specular, shininess, emissive)
  {
    var points := IcosahedronPoints(m);
    var faces := IcosahedronFaces;
    for i := 0 to subdivLoops
      invariant Icosphere(points, faces) == Subdivisions(m, i)
    {
      points, faces := SubdivisionPass(m, points, faces);
    }
    var pos := SphereSoup(points, faces);
    var norm := pos;
    var strip := ApplyPreTransform(m, preTransform, pos, norm);
    r := ColouredMesh(strip, ambient, diffuse, specular, shininess, emissive);
    SoupSize(points, faces);
    forall k | 0 <= k < |pos|
      ensures pos[k] == points[faces[k / 3][k % 3]]
    {
      SoupAt(points, faces, k);
    }
  }
}
