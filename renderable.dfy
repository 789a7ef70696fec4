/**
 * What a renderable shape exposes to a render context: vertex positions,
 * indices into them, one colour per vertex and a model transform.
 * Coordinates are carried as exact values; the renderer only stores and
 * copies them, it never computes with them.
 */
module Renderables {
  import opened Types

  datatype Vec3 = Vec3(x: real, y: real, z: real)

  datatype Vec4 = Vec4(x: real, y: real, z: real, w: real)

  /** A 4x4 matrix, its sixteen entries in column-major order. */
  datatype Mat4 = Mat4(entries: seq<real>)

  /** The entry in column `c`, row `r`. */
  function At(m: Mat4, c: nat, r: nat): real
    requires |m.entries| == 16 && c < 4 && r < 4
  {
    m.entries[4 * c + r]
  }

  /** `glm::mat4(1.0f)`: ones on the diagonal, zeros elsewhere. */
  function Identity(): (m: Mat4)
    ensures |m.entries| == 16
    ensures forall c, r :: 0 <= c < 4 && 0 <= r < 4 ==> At(m, c, r) == if c == r then 1.0 else 0.0
  {
    Mat4(seq(16, k => if k % 5 == 0 then 1.0 else 0.0))
  }

  /** The values an `IRenderable`'s four getters return. */
  datatype Renderable = Renderable(verts: seq<Vec3>, indices: seq<uint32>, cols: seq<Vec4>, transform: Mat4)

  /** One colour per vertex, and every index names a vertex of the same shape. */
  predicate WellFormed(r: Renderable)
  {
    |r.cols| == |r.verts| && forall i :: 0 <= i < |r.indices| ==> r.indices[i] as int < |r.verts|
  }
}
