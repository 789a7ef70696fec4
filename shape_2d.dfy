/** `CTriangle2d`: the one concrete renderable, a white triangle in the z = 0 plane. */
module Shapes {
  import opened Types
  import opened Renderables

  const WHITE := Vec4(1.0, 1.0, 1.0, 1.0)

  class Triangle2d {
    var verts: seq<Vec3>
    var indices: seq<uint32>
    var cols: seq<Vec4>
    var transform: Mat4

    /** What every triangle looks like once constructed; nothing changes it afterwards. */
    ghost predicate Valid()
      reads this
    {
      |verts| == 3 && indices == [0, 1, 2] && |cols| == 3 && transform == Identity()
    }

    /** Starts from empty vectors and appends three corners, three indices and three colours. */
    constructor ()
      ensures Valid()
      ensures verts == [Vec3(-0.5, -0.5, 0.0), Vec3(0.5, -0.5, 0.0), Vec3(0.0, 0.5, 0.0)]
      ensures cols == [WHITE, WHITE, WHITE]
      ensures WellFormed(AsRenderable())
    {
      transform := Identity();
      verts := [];
      indices := [];
      cols := [];

      verts := verts + [Vec3(-0.5, -0.5, 0.0)];
      verts := verts + [Vec3(0.5, -0.5, 0.0)];
      verts := verts + [Vec3(0.0, 0.5, 0.0)];

      indices := indices + [0];
      indices := indices + [1];
      indices := indices + [2];

      cols := cols + [WHITE];
      cols := cols + [WHITE];
      cols := cols + [WHITE];
    }

    function GetVerts(): (r: seq<Vec3>)
      requires Valid()
      reads this
      ensures |r| == 3
    {
      verts
    }

    function GetIndices(): (r: seq<uint32>)
      requires Valid()
      reads this
      ensures r == [0, 1, 2]
      ensures forall i :: 0 <= i < |r| ==> r[i] as int < |GetVerts()|
    {
      indices
    }

    function GetVertColours(): (r: seq<Vec4>)
      requires Valid()
      reads this
      ensures |r| == |GetVerts()|
    {
      cols
    }

    function GetTransformMatrix(): (r: Mat4)
      requires Valid()
      reads this
      ensures r == Identity()
    {
      transform
    }

    /** The triangle as a render context sees it through the four getters. */
    function AsRenderable(): (r: Renderable)
      reads this
      ensures Valid() ==> WellFormed(r) && |r.verts| == 3 && r.indices == [0, 1, 2]
    {
      Renderable(verts, indices, cols, transform)
    }
  }
}
