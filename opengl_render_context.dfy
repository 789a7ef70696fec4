/**
 * The OpenGL render context: a per-frame batch that `SubmitRenderable`
 * accumulates and `RenderFrame` draws and empties. Every `gl*` and `glfw*`
 * call is a no-op here, except that `RenderFrame` reports the draw it issues.
 */
module OpenGLRenderer {
  import opened Types
  import opened Renderables
  import Shapes

  const GLSL_VERSION := "#version 150"

  /** The `GLFWwindow *` the context draws into. */
  datatype WindowHandle = WindowHandle(id: nat)

  /** What `glBufferData` followed by `glDrawArrays(GL_TRIANGLES, first, count)` sends to the GPU. */
  datatype DrawCall = DrawCall(uploaded: seq<Vec3>, first: nat, count: nat)

  /** The contents of the three pending vectors. */
  datatype Batch = Batch(verts: seq<Vec3>, indicies: seq<uint32>, cols: seq<Vec4>)

  const EMPTY_BATCH := Batch([], [], [])

  /** The batch after one `SubmitRenderable(r)`: each vector gains `r`'s elements, indices unchanged. */
  function Append(b: Batch, r: Renderable): Batch
  {
    Batch(b.verts + r.verts, b.indicies + r.indices, b.cols + r.cols)
  }

  /** The batch a frame holds after submitting `rs` in order, starting from an empty batch. */
  function FrameBatch(rs: seq<Renderable>): Batch
  {
    if rs == [] then EMPTY_BATCH else Append(FrameBatch(rs[..|rs| - 1]), rs[|rs| - 1])
  }

  /** One colour per vertex, and every index names some vertex of the batch. */
  predicate BatchWellFormed(b: Batch)
  {
    |b.cols| == |b.verts| && forall i :: 0 <= i < |b.indicies| ==> b.indicies[i] as int < |b.verts|
  }

  /** Submitting a renderable appends to the batch and drops nothing already in it. */
  lemma FrameBatchExtends(rs: seq<Renderable>, r: Renderable)
    ensures FrameBatch(rs + [r]) == Append(FrameBatch(rs), r)
  {
  }

  /**
   * Concatenating well-formed renderables gives a well-formed batch: colours
   * still pair with vertices and no index falls outside the vertex buffer.
   * The indices are not offset, so from the second renderable on they point
   * at the vertices of the first ones rather than at their own.
   */
  lemma {:induction false} FrameBatchWellFormed(rs: seq<Renderable>)
    requires forall k :: 0 <= k < |rs| ==> WellFormed(rs[k])
    ensures BatchWellFormed(FrameBatch(rs))
  {
    if rs != [] {
      var n := |rs| - 1;
      var prefix := FrameBatch(rs[..n]);
      assert forall k :: 0 <= k < n ==> rs[..n][k] == rs[k];
      FrameBatchWellFormed(rs[..n]);
      var b := Append(prefix, rs[n]);
      assert WellFormed(rs[n]);
      forall i | 0 <= i < |b.indicies|
        ensures b.indicies[i] as int < |b.verts|
      {
        if i < |prefix.indicies| {
          assert b.indicies[i] == prefix.indicies[i];
        } else {
          assert b.indicies[i] == rs[n].indices[i - |prefix.indicies|];
        }
      }
    }
  }

  /** The sizes of a frame's batch are the sums of the sizes of what was submitted. */
  function TotalVerts(rs: seq<Renderable>): nat
  {
    if rs == [] then 0 else TotalVerts(rs[..|rs| - 1]) + |rs[|rs| - 1].verts|
  }

  lemma {:induction false} FrameBatchVertexCount(rs: seq<Renderable>)
    ensures |FrameBatch(rs).verts| == TotalVerts(rs)
  {
    if rs != [] {
      FrameBatchVertexCount(rs[..|rs| - 1]);
    }
  }

  /**
   * One triangle submitted twice: six vertices, six colours, and the indices
   * of the second copy are again 0, 1, 2 (its own vertices sit at 3, 4, 5).
   */
  lemma TriangleSubmittedTwice(tri: Shapes.Triangle2d)
    requires tri.Valid()
    ensures var b := FrameBatch([tri.AsRenderable(), tri.AsRenderable()]);
            |b.verts| == 6 && |b.cols| == 6 && b.indicies == [0, 1, 2, 0, 1, 2]
            && b.verts[3..] == b.verts[..3] == tri.GetVerts()
  {
    var t := tri.AsRenderable();
    FrameBatchExtends([], t);
    FrameBatchExtends([t], t);
    assert [] + [t] == [t] && [t] + [t] == [t, t];
    var b := FrameBatch([t, t]);
    assert b == Batch(t.verts + t.verts, [0, 1, 2] + [0, 1, 2], t.cols + t.cols);
  }

  /** `SRenderData`: the pending vectors; its GL object names are not modelled. */
  class RenderData {
    var verts: seq<Vec3>
    var indicies: seq<uint32>
    var cols: seq<Vec4>

    constructor ()
      ensures verts == [] && indicies == [] && cols == []
    {
      verts := [];
      indicies := [];
      cols := [];
    }
  }

  class OpenGLRenderContext {
    var lastError: string
    var screenWidth: uint32
    var screenHeight: uint32
    var glslVersion: string
    const window: WindowHandle
    /** `temp_render_data`; `null` until the first submission. */
    var renderData: RenderData?

    /** Nothing in this backend writes the error string or the GLSL version after construction. */
    ghost predicate Valid()
      reads this
    {
      lastError == "" && glslVersion == GLSL_VERSION
    }

    /** What is waiting to be drawn; nothing while there is no render data. */
    ghost function Pending(): Batch
      reads this, renderData
    {
      if renderData == null then EMPTY_BATCH
      else Batch(renderData.verts, renderData.indicies, renderData.cols)
    }

    constructor (glfwWindow: WindowHandle)
      ensures Valid()
      ensures screenWidth == 0 && screenHeight == 0
      ensures glslVersion == GLSL_VERSION && window == glfwWindow
      ensures renderData == null && Pending() == EMPTY_BATCH
    {
      lastError := "";
      screenWidth := 0;
      screenHeight := 0;
      glslVersion := GLSL_VERSION;
      window := glfwWindow;
      renderData := null;
    }

    /** The backend never records an error. */
    function HasError(): (r: bool)
      requires Valid()
      reads this
      ensures !r
    {
      lastError != ""
    }

    function GetLastError(): (r: string)
      requires Valid()
      reads this
      ensures r == ""
    {
      lastError
    }

    function GetGLSLVersion(): (r: string)
      requires Valid()
      reads this
      ensures r == GLSL_VERSION
    {
      glslVersion
    }

    /**
     * `gladLoaded` is whether `gladLoadGL` succeeded. A failure is only logged:
     * the result is false but the error string stays empty.
     */
    method Init(gladLoaded: bool) returns (ok: bool)
      requires Valid()
      ensures ok == gladLoaded
      ensures !HasError()
    {
      if !gladLoaded {
        return false;
      }
      return true;
    }

    method ResizeScreen(width: uint32, height: uint32)
      modifies this`screenWidth, this`screenHeight
      ensures screenWidth == width && screenHeight == height
    {
      screenWidth := width;
      screenHeight := height;
    }

    /** `init_new_renderdata`: empty vectors; the buffer, array and shader set-up is GL-only. */
    method InitNewRenderData() returns (data: RenderData)
      ensures fresh(data)
      ensures data.verts == [] && data.indicies == [] && data.cols == []
    {
      data := new RenderData();
    }

    /**
     * Creates the render data on first use, then appends the renderable's
     * vertices, indices and colours, element by element. The indices are
     * copied as they are, without adding the number of vertices already held.
     */
    method SubmitRenderable(r: Renderable)
      requires Valid()
      modifies this`renderData, renderData
      ensures Valid()
      ensures renderData != null
      ensures old(renderData) != null ==> renderData == old(renderData)
      ensures old(renderData) == null ==> fresh(renderData)
      ensures renderData.verts == old(Pending().verts) + r.verts
      ensures renderData.indicies == old(Pending().indicies) + r.indices
      ensures renderData.cols == old(Pending().cols) + r.cols
      ensures Pending() == Append(old(Pending()), r)
    {
      if renderData == null {
        renderData := InitNewRenderData();
      }
      var data := renderData;

      for k := 0 to |r.verts|
        modifies data
        invariant data.verts == old(Pending().verts) + r.verts[..k]
        invariant data.indicies == old(Pending().indicies) && data.cols == old(Pending().cols)
      {
        data.verts := data.verts + [r.verts[k]];
      }
      for k := 0 to |r.indices|
        modifies data
        invariant data.verts == old(Pending().verts) + r.verts
        invariant data.indicies == old(Pending().indicies) + r.indices[..k]
        invariant data.cols == old(Pending().cols)
      {
        data.indicies := data.indicies + [r.indices[k]];
      }
      for k := 0 to |r.cols|
        modifies data
        invariant data.verts == old(Pending().verts) + r.verts
        invariant data.indicies == old(Pending().indicies) + r.indices
        invariant data.cols == old(Pending().cols) + r.cols[..k]
      {
        data.cols := data.cols + [r.cols[k]];
      }
      assert r.verts[..|r.verts|] == r.verts;
      assert r.indices[..|r.indices|] == r.indices;
      assert r.cols[..|r.cols|] == r.cols;
    }

    /**
     * Draws the pending vertices when there are any, then empties all three
     * vectors whether or not anything was drawn. Without render data nothing
     * is drawn and nothing changes.
     */
    method RenderFrame() returns (draw: Option<DrawCall>)
      requires Valid()
      modifies renderData
      ensures Valid()
      ensures Pending() == EMPTY_BATCH
      ensures draw.Some? <==> old(Pending().verts) != []
      ensures draw.Some? ==> draw.value == DrawCall(old(Pending().verts), 0, |old(Pending().verts)|)
      ensures draw.Some? ==> draw.value.count == |draw.value.uploaded|
    {
      draw := None;
      if renderData != null {
        if renderData.verts != [] {
          var verts := renderData.verts;
          draw := Some(DrawCall(verts, 0, |verts|));
        }
        renderData.verts := [];
        renderData.indicies := [];
        renderData.cols := [];
      }
    }
  }

  /**
   * The submissions of one pass of the window loop. `EditorWindow::Render`
   * submits zero or one renderable; this generalises that to any sequence.
   * Starting from the empty batch that the previous `RenderFrame` left, the
   * context then holds exactly `FrameBatch(rs)`.
   */
  method SubmitAll(g: OpenGLRenderContext, rs: seq<Renderable>)
    requires g.Valid() && g.Pending() == EMPTY_BATCH
    modifies g`renderData, g.renderData
    ensures g.Valid()
    ensures g.Pending() == FrameBatch(rs)
    ensures old(g.renderData) != null ==> g.renderData == old(g.renderData)
    ensures g.renderData != null && g.renderData != old(g.renderData) ==> fresh(g.renderData)
  {
    for k := 0 to |rs|
      invariant g.Valid()
      invariant g.Pending() == FrameBatch(rs[..k])
      invariant old(g.renderData) != null ==> g.renderData == old(g.renderData)
      invariant g.renderData != null && g.renderData != old(g.renderData) ==> fresh(g.renderData)
    {
      g.SubmitRenderable(rs[k]);
      assert rs[..k + 1] == rs[..k] + [rs[k]];
      FrameBatchExtends(rs[..k], rs[k]);
    }
    assert rs[..|rs|] == rs;
  }

  /**
   * One frame: submit `rs`, then `RenderFrame`. The frame draws exactly the
   * concatenated vertices of what was submitted, if there are any, and
   * leaves the batch empty for the next frame.
   */
  method SubmitAndRender(g: OpenGLRenderContext, rs: seq<Renderable>) returns (draw: Option<DrawCall>)
    requires g.Valid() && g.Pending() == EMPTY_BATCH
    modifies g`renderData, g.renderData
    ensures g.Valid()
    ensures g.Pending() == EMPTY_BATCH
    ensures draw.Some? <==> TotalVerts(rs) > 0
    ensures draw.Some? ==> draw.value == DrawCall(FrameBatch(rs).verts, 0, TotalVerts(rs))
    ensures old(g.renderData) != null ==> g.renderData == old(g.renderData)
    ensures g.renderData != null && g.renderData != old(g.renderData) ==> fresh(g.renderData)
  {
    SubmitAll(g, rs);
    FrameBatchVertexCount(rs);
    draw := g.RenderFrame();
  }

  /** Two passes of the window loop in a row: each frame draws only what was submitted in it. */
  method TwoFrames(g: OpenGLRenderContext, first: seq<Renderable>, second: seq<Renderable>)
    returns (draw1: Option<DrawCall>, draw2: Option<DrawCall>)
    requires g.Valid() && g.Pending() == EMPTY_BATCH
    modifies g`renderData, g.renderData
    ensures g.Valid() && g.Pending() == EMPTY_BATCH
    ensures draw1.Some? <==> TotalVerts(first) > 0
    ensures draw2.Some? <==> TotalVerts(second) > 0
    ensures draw2.Some? ==> draw2.value == DrawCall(FrameBatch(second).verts, 0, TotalVerts(second))
  {
    draw1 := SubmitAndRender(g, first);
    draw2 := SubmitAndRender(g, second);
  }
}
