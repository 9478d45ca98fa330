/**
 * Triangle-soup meshes (main/mesh.hpp, main/mesh.cpp): the eight per-vertex
 * attribute lists, `concatenate`, and the conversion loop of
 * `load_wavefront_obj` over an already parsed and triangulated OBJ file.
 */
module Meshes {
  import opened Matrices

  /** `MeshData`: one entry per vertex in every list that is in use. */
  datatype MeshData = MeshData(
    positions: seq<Vec3>,
    normals: seq<Vec3>,
    texcoords: seq<Vec2>,
    ambient: seq<Vec3>,
    diffuse: seq<Vec3>,
    specular: seq<Vec3>,
    shininess: seq<real>,
    emissive: seq<Vec3>)

  /** A default-constructed `MeshData`. */
  const Empty := MeshData([], [], [], [], [], [], [], [])

  /** `r` is `a` followed by `b`. */
  predicate Splits<T(==)>(r: seq<T>, a: seq<T>, b: seq<T>)
  {
    |r| == |a| + |b| && r[..|a|] == a && r[|a|..] == b
  }

  /** Every attribute list of `r` is that of `a` followed by that of `b`. */
  predicate Joins(r: MeshData, a: MeshData, b: MeshData)
  {
    && Splits(r.positions, a.positions, b.positions)
    && Splits(r.normals, a.normals, b.normals)
    && Splits(r.texcoords, a.texcoords, b.texcoords)
    && Splits(r.ambient, a.ambient, b.ambient)
    && Splits(r.diffuse, a.diffuse, b.diffuse)
    && Splits(r.specular, a.specular, b.specular)
    && Splits(r.shininess, a.shininess, b.shininess)
    && Splits(r.emissive, a.emissive, b.emissive)
  }

  /**
   * `concatenate(aM, aN)`: `aM` is taken by value, each of its lists gets
   * `aN`'s list inserted at its end, and the copy is returned.
   */
  function Concatenate(aM: MeshData, aN: MeshData): MeshData
  {
    aM.(positions := aM.positions + aN.positions,
        normals := aM.normals + aN.normals,
        texcoords := aM.texcoords + aN.texcoords,
        ambient := aM.ambient + aN.ambient,
        diffuse := aM.diffuse + aN.diffuse,
        specular := aM.specular + aN.specular,
        shininess := aM.shininess + aN.shininess,
        emissive := aM.emissive + aN.emissive)
  }

  /** Each list of the result is the first operand's list followed by the second's. */
  lemma ConcatenateJoins(aM: MeshData, aN: MeshData)
    ensures Joins(Concatenate(aM, aN), aM, aN)
  {
  }

  /** The empty mesh is a unit of `concatenate` on both sides. */
  lemma ConcatenateEmpty(a: MeshData)
    ensures Concatenate(Empty, a) == a
    ensures Concatenate(a, Empty) == a
  {
  }

  /** `concatenate` is associative, so a chain of calls may be folded either way. */
  lemma ConcatenateAssociative(a: MeshData, b: MeshData, c: MeshData)
    ensures Concatenate(Concatenate(a, b), c) == Concatenate(a, Concatenate(b, c))
  {
  }

  // ---------------------------------------------------------------------
  // The parsed OBJ file handed to the conversion loop
  // ---------------------------------------------------------------------

  /** One corner of a face: indices into the attribute arrays. */
  datatype Index = Index(positionIndex: int, normalIndex: int, texcoordIndex: int)

  /** The colour part of an OBJ material. */
  datatype Material = Material(ambient: Vec3, diffuse: Vec3, specular: Vec3, shininess: real, emission: Vec3)

  /** A shape: triangulated corner indices and one material id per triangle. */
  datatype ObjShape = ObjShape(indices: seq<Index>, materialIds: seq<int>)

  /** Flat attribute arrays: three reals per position and normal, two per texture coordinate. */
  datatype Attributes = Attributes(positions: seq<real>, normals: seq<real>, texcoords: seq<real>)

  datatype ObjResult = ObjResult(attributes: Attributes, shapes: seq<ObjShape>, materials: seq<Material>)

  /** What the OBJ parser hands back: an error or the parsed, triangulated file. */
  datatype ParseResult = ParseFailed(message: string) | Parsed(obj: ObjResult)

  /** What `load_wavefront_obj` does: return a mesh or throw an `Error`. */
  datatype LoadResult = Loaded(mesh: MeshData) | LoadError(message: string)

  /** Corner `i` of shape `s` reads only entries that exist. */
  predicate IndexReadable(obj: ObjResult, s: ObjShape, i: nat, useTexture: bool)
    requires i < |s.indices|
  {
    var idx := s.indices[i];
    && 0 <= idx.positionIndex && idx.positionIndex * 3 + 2 < |obj.attributes.positions|
    && 0 <= idx.normalIndex && idx.normalIndex * 3 + 2 < |obj.attributes.normals|
    && if useTexture then
         0 <= idx.texcoordIndex && idx.texcoordIndex * 2 + 1 < |obj.attributes.texcoords|
       else
         i / 3 < |s.materialIds| && 0 <= s.materialIds[i / 3] < |obj.materials|
  }

  predicate ShapeReadable(obj: ObjResult, s: ObjShape, useTexture: bool)
  {
    forall i :: 0 <= i < |s.indices| ==> IndexReadable(obj, s, i, useTexture)
  }

  /** Every lookup the conversion loop makes is in range. */
  predicate Readable(obj: ObjResult, useTexture: bool)
  {
    forall k :: 0 <= k < |obj.shapes| ==> ShapeReadable(obj, obj.shapes[k], useTexture)
  }

  function Vec3At(a: seq<real>, j: int): Vec3
    requires 0 <= j && j * 3 + 2 < |a|
  {
    Vec3(a[j * 3 + 0], a[j * 3 + 1], a[j * 3 + 2])
  }

  function Vec2At(a: seq<real>, j: int): Vec2
    requires 0 <= j && j * 2 + 1 < |a|
  {
    Vec2(a[j * 2 + 0], a[j * 2 + 1])
  }

  /** The entries the loop appends for corner `i` of shape `s`. */
  function CornerMesh(obj: ObjResult, s: ObjShape, i: nat, useTexture: bool): MeshData
    requires i < |s.indices| && IndexReadable(obj, s, i, useTexture)
  {
    var idx := s.indices[i];
    var p := Vec3At(obj.attributes.positions, idx.positionIndex);
    var n := Vec3At(obj.attributes.normals, idx.normalIndex);
    if useTexture then
      Empty.(positions := [p], normals := [n],
             texcoords := [Vec2At(obj.attributes.texcoords, idx.texcoordIndex)])
    else
      var mat := obj.materials[s.materialIds[i / 3]];
      Empty.(positions := [p], normals := [n],
             ambient := [mat.ambient], diffuse := [mat.diffuse], specular := [mat.specular],
             shininess := [mat.shininess], emissive := [mat.emission])
  }

  /** The entries appended for the first `n` corners of shape `s`. */
  function ShapeMesh(obj: ObjResult, s: ObjShape, n: nat, useTexture: bool): MeshData
    requires n <= |s.indices| && ShapeReadable(obj, s, useTexture)
  {
    if n == 0 then Empty
    else Concatenate(ShapeMesh(obj, s, n - 1, useTexture), CornerMesh(obj, s, n - 1, useTexture))
  }

  /** The entries appended for the first `k` shapes of the file. */
  function ObjMesh(obj: ObjResult, k: nat, useTexture: bool): MeshData
    requires k <= |obj.shapes| && Readable(obj, useTexture)
  {
    if k == 0 then Empty
    else
      var s := obj.shapes[k - 1];
      Concatenate(ObjMesh(obj, k - 1, useTexture), ShapeMesh(obj, s, |s.indices|, useTexture))
  }

  /** Number of corners in the first `k` shapes. */
  function TotalIndices(shapes: seq<ObjShape>, k: nat): nat
    requires k <= |shapes|
  {
    if k == 0 then 0 else TotalIndices(shapes, k - 1) + |shapes[k - 1].indices|
  }

  /**
   * `load_wavefront_obj`: a parse error becomes the thrown `Error`;
   * otherwise every corner of every shape appends its position and normal,
   * then either its texture coordinate or its triangle's material colours.
   */
  method LoadWavefrontObj(path: string, parsed: ParseResult, useTexture: bool) returns (r: LoadResult)
    requires parsed.Parsed? ==> Readable(parsed.obj, useTexture)
    ensures parsed.ParseFailed? ==>
      r == LoadError("Unable to load OBJ file '" + path + "': " + parsed.message)
    ensures parsed.Parsed? ==>
      r == Loaded(ObjMesh(parsed.obj, |parsed.obj.shapes|, useTexture))
  {
    if parsed.ParseFailed? {
      return LoadError("Unable to load OBJ file '" + path + "': " + parsed.message);
    }
    var obj := parsed.obj;
    var ret := Empty;
    for k := 0 to |obj.shapes|
      invariant ret == ObjMesh(obj, k, useTexture)
    {
      ret := AppendShape(ret, obj, obj.shapes[k], useTexture);
    }
    return Loaded(ret);
  }

  /** The inner loop of `load_wavefront_obj`: append every corner of `shape`. */
  method AppendShape(ret: MeshData, obj: ObjResult, shape: ObjShape, useTexture: bool)
    returns (next: MeshData)
    requires ShapeReadable(obj, shape, useTexture)
    ensures next == Concatenate(ret, ShapeMesh(obj, shape, |shape.indices|, useTexture))
  {
    next := ret;
    for i := 0 to |shape.indices|
      invariant next == Concatenate(ret, ShapeMesh(obj, shape, i, useTexture))
    {
      assert IndexReadable(obj, shape, i, useTexture);
      next := AppendCorner(next, obj, shape, i, useTexture);
      ConcatenateAssociative(ret, ShapeMesh(obj, shape, i, useTexture), CornerMesh(obj, shape, i, useTexture));
    }
  }

  /** The body of the inner loop of `load_wavefront_obj`, for corner `i` of `shape`. */
  method AppendCorner(ret: MeshData, obj: ObjResult, shape: ObjShape, i: nat, useTexture: bool)
    returns (next: MeshData)
    requires i < |shape.indices| && IndexReadable(obj, shape, i, useTexture)
    ensures next == Concatenate(ret, CornerMesh(obj, shape, i, useTexture))
  {
    var idx := shape.indices[i];
    next := ret.(positions := ret.positions + [Vec3At(obj.attributes.positions, idx.positionIndex)]);
    next := next.(normals := next.normals + [Vec3At(obj.attributes.normals, idx.normalIndex)]);
    if useTexture {
      next := next.(texcoords := next.texcoords + [Vec2At(obj.attributes.texcoords, idx.texcoordIndex)]);
    } else {
      var mat := obj.materials[shape.materialIds[i / 3]];
      next := next.(ambient := next.ambient + [mat.ambient]);
      next := next.(diffuse := next.diffuse + [mat.diffuse]);
      next := next.(specular := next.specular + [mat.specular]);
      next := next.(shininess := next.shininess + [mat.shininess]);
      next := next.(emissive := next.emissive + [mat.emission]);
    }
  }

  // ---------------------------------------------------------------------
  // Properties of the conversion
  // ---------------------------------------------------------------------

  /** The lengths of the eight attribute lists. */
  datatype Sizes = Sizes(
    positions: nat, normals: nat, texcoords: nat, ambient: nat,
    diffuse: nat, specular: nat, shininess: nat, emissive: nat)
  {
    function Plus(o: Sizes): Sizes
    {
      Sizes(positions + o.positions, normals + o.normals, texcoords + o.texcoords,
            ambient + o.ambient, diffuse + o.diffuse, specular + o.specular,
            shininess + o.shininess, emissive + o.emissive)
    }
  }

  function SizesOf(m: MeshData): Sizes
  {
    Sizes(|m.positions|, |m.normals|, |m.texcoords|, |m.ambient|,
          |m.diffuse|, |m.specular|, |m.shininess|, |m.emissive|)
  }

  /**
   * The sizes `n` corners should produce: `n` positions and normals, and
   * `n` texture coordinates or `n` entries in each material list.
   */
  function CornerSizes(useTexture: bool, n: nat): Sizes
  {
    var t := if useTexture then n else 0;
    var c := if useTexture then 0 else n;
    Sizes(n, n, t, c, c, c, c, c)
  }

  /** `m` holds the entries of `n` corners. */
  predicate HasCornerSizes(m: MeshData, useTexture: bool, n: nat)
  {
    SizesOf(m) == CornerSizes(useTexture, n)
  }

  /** Concatenating the entries of `x` corners and of `y` corners gives those of `x + y` corners. */
  lemma SizesAdd(useTexture: bool, a: MeshData, b: MeshData, x: nat, y: nat)
    requires HasCornerSizes(a, useTexture, x) && HasCornerSizes(b, useTexture, y)
    ensures HasCornerSizes(Concatenate(a, b), useTexture, x + y)
  {
  }

  lemma CornerMeshSizes(obj: ObjResult, s: ObjShape, i: nat, useTexture: bool)
    requires i < |s.indices| && IndexReadable(obj, s, i, useTexture)
    ensures HasCornerSizes(CornerMesh(obj, s, i, useTexture), useTexture, 1)
  {
  }

  /** The lengths of the lists the first `n` corners of a shape produce. */
  lemma {:induction false} ShapeMeshSizes(obj: ObjResult, s: ObjShape, n: nat, useTexture: bool)
    requires n <= |s.indices| && ShapeReadable(obj, s, useTexture)
    ensures HasCornerSizes(ShapeMesh(obj, s, n, useTexture), useTexture, n)
  {
    if n > 0 {
      var before := ShapeMesh(obj, s, n - 1, useTexture);
      var corner := CornerMesh(obj, s, n - 1, useTexture);
      ShapeMeshSizes(obj, s, n - 1, useTexture);
      CornerMeshSizes(obj, s, n - 1, useTexture);
      SizesAdd(useTexture, before, corner, n - 1, 1);
    }
  }

  /**
   * One position and one normal per corner of the first `k` shapes, and
   * either one texture coordinate per corner (with every material list
   * empty) or one entry per corner in each of the five material lists
   * (with no texture coordinates).
   */
  lemma {:induction false} ObjMeshSizes(obj: ObjResult, k: nat, useTexture: bool)
    requires k <= |obj.shapes| && Readable(obj, useTexture)
    ensures HasCornerSizes(ObjMesh(obj, k, useTexture), useTexture, TotalIndices(obj.shapes, k))
  {
    if k > 0 {
      var s := obj.shapes[k - 1];
      var before := ObjMesh(obj, k - 1, useTexture);
      var shape := ShapeMesh(obj, s, |s.indices|, useTexture);
      ObjMeshSizes(obj, k - 1, useTexture);
      ShapeMeshSizes(obj, s, |s.indices|, useTexture);
      SizesAdd(useTexture, before, shape, TotalIndices(obj.shapes, k - 1), |s.indices|);
    }
  }

  /**
   * Entry `i` of a shape's lists comes from corner `i`: its position and
   * normal are the indexed attribute triples, and its texture coordinate or
   * its colours come from the corner, or from the material of triangle `i / 3`.
   */
  lemma {:induction false} ShapeMeshEntries(obj: ObjResult, s: ObjShape, n: nat, useTexture: bool, i: nat)
    requires n <= |s.indices| && ShapeReadable(obj, s, useTexture) && i < n
    ensures var r := ShapeMesh(obj, s, n, useTexture);
      var idx := s.indices[i];
      IndexReadable(obj, s, i, useTexture) &&
      |r.positions| == n && |r.normals| == n &&
      r.positions[i] == Vec3At(obj.attributes.positions, idx.positionIndex) &&
      r.normals[i] == Vec3At(obj.attributes.normals, idx.normalIndex) &&
      if useTexture then
        |r.texcoords| == n && r.texcoords[i] == Vec2At(obj.attributes.texcoords, idx.texcoordIndex)
      else
        var mat := obj.materials[s.materialIds[i / 3]];
        |r.ambient| == n && |r.diffuse| == n && |r.specular| == n && |r.shininess| == n && |r.emissive| == n &&
        r.ambient[i] == mat.ambient && r.diffuse[i] == mat.diffuse && r.specular[i] == mat.specular &&
        r.shininess[i] == mat.shininess && r.emissive[i] == mat.emission
  {
    ShapeMeshSizes(obj, s, n, useTexture);
    if i < n - 1 {
      ShapeMeshEntries(obj, s, n - 1, useTexture, i);
    }
  }
}
