# GOAT renderer core, modelled in Dafny

This project models the parts of the GOAT engine's renderer that contain logic:

- **Vulkan physical-device selection** (`VulkanDevices`, render_context.dfy). Each device is scored as
  follows: a bonus of 10000 for a discrete GPU, plus its largest 2D image size, or 0 when none of its
  queue families has the graphics bit. In `Init`, a device replaces the held one only when its score
  is strictly higher than the best so far, so the earliest of the highest positive scores is kept.
  `Init` records a sticky error string when there are no devices, and another when no device is
  suitable. The Vulkan queries are replaced by plain input records (`PhysicalDevice`), each carrying
  its handle, so two GPUs with identical properties remain distinct.
- **The OpenGL backend's per-frame batch** (`OpenGLRenderer`, opengl_render_context.dfy).
  `SubmitRenderable` creates the render data when it is first needed. It then appends a renderable's
  vertices, indices and colours to three growable vectors. `RenderFrame` draws the vertices if there
  are any, then empties all three vectors. `ResizeScreen` stores the new size.
- **`CTriangle2d`** (`Shapes`, shape_2d.dfy), the one concrete renderable. It has three vertices,
  indices 0, 1, 2, three white colours and an identity transform.
- **`GOAT::optional<T>`** (`GoatOptional`, optional.dfy), a value slot plus a "has value" flag.

`IRenderable` is a C++ interface with virtual getters. Here it is the value type `Renderables.Renderable`,
which holds what the four getters return. A render context receives that value.
The element types `glm::vec3`, `glm::vec4` and `glm::mat4` become records of exact numbers. The renderer
only stores and copies them and never computes with them.

Behaviour kept as written:

- `find_queue_families` never advances its counter `i`. So the graphics family it records always has
  index 0, whichever family actually matched (`VulkanDevices.FindQueueFamilies`). Scoring reads only
  the "found" flag, so the score is not affected.
- `Init` does not reset `m_physical_device` before its loop. Its final null check therefore also sees
  a device chosen by an earlier call. On a freshly constructed context, where nothing is selected yet,
  an all-unsuitable device list makes `Init` fail with "All devices found were unsuitable".
- `SubmitRenderable` appends indices verbatim, with no offset for the vertices already in the batch.
  From the second renderable on, its indices point at earlier renderables' vertices
  (`OpenGLRenderer.TriangleSubmittedTwice`). The draw uses `glDrawArrays`, which never reads the index
  vector, so what is drawn does not change.
- Scoring checks only for a graphics-capable queue family. Presentation support, device extensions
  and swapchain formats are not checked (src/shared/renderer/render_context.cpp:61-65).
- `Init` ends after device selection: it creates no logical device and retrieves no queues.

## Model

| member | source | states |
|---|---|---|
| `VulkanDevices.FindQueueFamilies` | src/shared/renderer/render_context.cpp:19-41 | the found flag is true exactly when some queue family has the graphics bit; the recorded index is always 0 |
| `VulkanDevices.DeviceScore` | src/shared/renderer/render_context.cpp:54-65 | the score is 0 without a graphics family, and at least the 2D image size with one; it is 0 exactly when the device has no graphics family, or is not discrete and has image size 0; it never exceeds 10000 + 2^32 - 1 |
| `VulkanDevices.ScorePhysicalDevice` | src/shared/renderer/render_context.cpp:43-72 | the `uint64_t` accumulation never overflows, and the result equals `DeviceScore` |
| `VulkanDevices.SelectedIndex` | src/shared/renderer/render_context.cpp:121-130 | the position held by the selection loop is always a position in the list |
| `VulkanDevices.BestScoreIsMaximum` | src/shared/renderer/render_context.cpp:121-130 | the loop's final `device_score` is at least every device's score, and is some device's score unless it is 0 |
| `VulkanDevices.SelectedIndexIsFirstMaximum` | src/shared/renderer/render_context.cpp:121-130 | the loop selects nothing exactly when every device scores 0; otherwise it selects a device with a positive score equal to the best score, every earlier device scores strictly less, and every later device scores no more |
| `VulkanDevices.FirstMaximumIsUnique` | src/shared/renderer/render_context.cpp:121-130 | at most one position can be the earliest maximum |
| `VulkanDevices.SelectionIsFirstMaximum` | src/shared/renderer/render_context.cpp:121-136 | the loop selects position k if and only if k holds the earliest of the highest positive scores; it selects nothing if and only if all devices are unsuitable |
| `VulkanDevices.TieGoesToEarliest` | src/shared/renderer/render_context.cpp:125-129 | because the comparison is strict `>`, a later device with an equal score is never the one selected |
| `VulkanDevices.DiscreteGpuScenario` | src/shared/renderer/render_context.cpp:54-59 | an integrated GPU with size 4096 scores 4096 and a discrete one with size 8192 scores 18192; the discrete one is selected |
| `VulkanDevices.IdenticalGpusScenario` | src/shared/renderer/render_context.cpp:121-130 | of two GPUs with identical properties, the first one enumerated (handle 7) is the one kept |
| `VulkanDevices.VulkanRenderContext.HasError` | src/shared/renderer/vulkan/vulkan_render_context.hpp:24 | an error is reported exactly when the error string is non-empty |
| `VulkanDevices.VulkanRenderContext.constructor` | src/shared/renderer/render_context.cpp:74-102 | no device is selected; the error string is "Failed to create Vulkan instance" if instance creation failed and empty otherwise |
| `VulkanDevices.VulkanRenderContext.Init` | src/shared/renderer/render_context.cpp:109-142 | with no devices, `Init` fails, sets "No physical devices found" and leaves the selection alone; otherwise the held device is the first highest positive scorer, or the earlier one if none scores above 0; the result is whether a device is held; on success the error string is unchanged; on failure it is "All devices found were unsuitable" |
| `OpenGLRenderer.OpenGLRenderContext.constructor` | src/shared/renderer/opengl/opengl_render_context.cpp:18-24 | width and height are 0, the GLSL version is "#version 150", the window is the one given, and there is no render data (an empty batch) |
| `OpenGLRenderer.OpenGLRenderContext.HasError` | src/shared/renderer/opengl/opengl_render_context.hpp:41 | the OpenGL backend never reports an error |
| `OpenGLRenderer.OpenGLRenderContext.GetLastError` | src/shared/renderer/opengl/opengl_render_context.hpp:42 | the error string is always empty |
| `OpenGLRenderer.OpenGLRenderContext.GetGLSLVersion` | src/shared/renderer/opengl/opengl_render_context.hpp:44 | the GLSL version is always "#version 150" |
| `OpenGLRenderer.OpenGLRenderContext.Init` | src/shared/renderer/opengl/opengl_render_context.cpp:36-48 | succeeds exactly when GLAD loads; a failure changes no state and sets no error |
| `OpenGLRenderer.OpenGLRenderContext.ResizeScreen` | src/shared/renderer/opengl/opengl_render_context.cpp:50-54 | the stored width and height become the arguments, and nothing else changes |
| `OpenGLRenderer.OpenGLRenderContext.InitNewRenderData` | src/shared/renderer/opengl/opengl_render_context.cpp:107-184 | returns new render data whose three vectors are empty |
| `OpenGLRenderer.RenderData.constructor` | src/shared/renderer/opengl/opengl_render_context.hpp:16-27 | new render data starts with three empty vectors |
| `OpenGLRenderer.OpenGLRenderContext.SubmitRenderable` | src/shared/renderer/opengl/opengl_render_context.cpp:86-105 | render data is created only when absent and is never replaced; afterwards `verts`, `indicies` and `cols` are the old contents followed by the renderable's, with indices copied verbatim |
| `OpenGLRenderer.OpenGLRenderContext.RenderFrame` | src/shared/renderer/opengl/opengl_render_context.cpp:65-84 | a draw is issued exactly when vertices are pending; it uploads those vertices and draws all of them from 0; afterwards the batch is empty, whether or not it was empty before; without render data nothing changes |
| `OpenGLRenderer.FrameBatchExtends` | src/shared/renderer/opengl/opengl_render_context.cpp:93-104 | a submission extends the frame's batch and keeps what was already submitted |
| `OpenGLRenderer.FrameBatchWellFormed` | src/shared/renderer/opengl/opengl_render_context.cpp:93-104 | if every submitted renderable has one colour per vertex and in-range indices, then so does the whole batch |
| `OpenGLRenderer.FrameBatchVertexCount` | src/shared/renderer/opengl/opengl_render_context.cpp:93-96 | the batch holds exactly as many vertices as the submitted renderables have together |
| `OpenGLRenderer.TriangleSubmittedTwice` | src/shared/renderer/opengl/opengl_render_context.cpp:97-100 | the triangle submitted twice gives six vertices, six colours and indices [0,1,2,0,1,2]; the second copy's indices point at the first copy's vertices |
| `OpenGLRenderer.SubmitAll` | src/editor/editor_window.cpp:105-111 | starting from the empty batch the last frame left, submitting renderables in order leaves the context holding exactly their concatenated vertices, indices and colours |
| `OpenGLRenderer.SubmitAndRender` | src/shared/window/platform/glfw_window.cpp:208-230 | one pass of the window loop: the frame draws exactly the concatenated vertices of what was submitted, if any, from 0 and counting all of them, and the batch is empty again afterwards |
| `OpenGLRenderer.TwoFrames` | src/shared/window/platform/glfw_window.cpp:208-230 | two passes of the window loop run back to back; the second frame draws only what was submitted after the first `RenderFrame` |
| `Shapes.Triangle2d.constructor` | src/shared/renderer/primitives/shape_2d.cpp:5-22 | the triangle has corners (-0.5,-0.5,0), (0.5,-0.5,0) and (0,0.5,0), indices [0,1,2], three white colours and an identity transform |
| `Shapes.Triangle2d.GetVerts` | src/shared/renderer/primitives/shape_2d.cpp:24-27 | a triangle has exactly three vertices |
| `Shapes.Triangle2d.GetIndices` | src/shared/renderer/primitives/shape_2d.cpp:29-32 | the indices are exactly [0,1,2], each less than the vertex count |
| `Shapes.Triangle2d.GetVertColours` | src/shared/renderer/primitives/shape_2d.cpp:34-37 | there are as many colours as vertices |
| `Shapes.Triangle2d.GetTransformMatrix` | src/shared/renderer/primitives/shape_2d.cpp:39-42 | the transform is the identity |
| `Shapes.Triangle2d.AsRenderable` | src/shared/renderer/renderable.hpp:10-20 | what the getters expose is a well-formed renderable with three vertices and indices [0,1,2] |
| `Renderables.Identity` | src/shared/renderer/primitives/shape_2d.cpp:9 | `glm::mat4(1.0f)` has ones on the diagonal and zeros elsewhere |
| `GoatOptional.Optional.constructor` | src/shared/utility/optional.hpp:32 | a default-constructed optional holds no value |
| `GoatOptional.Optional.HasValue` | src/shared/utility/optional.hpp:11 | true exactly when a value is held |
| `GoatOptional.Optional.Value` | src/shared/utility/optional.hpp:12 | while a value is held, returns that value |
| `GoatOptional.Optional.Equals` | src/shared/utility/optional.hpp:14 | `o == v` holds exactly when `o` holds `v`; an empty optional equals nothing |
| `GoatOptional.Optional.AssignCopy` | src/shared/utility/optional.hpp:17-22 | afterwards `o` holds exactly `rhs`, whatever it held before; assigning the value it already holds changes nothing; returns the optional itself |
| `GoatOptional.Optional.AssignMove` | src/shared/utility/optional.hpp:24-29 | the same as the copy assignment, because moving from a const value copies it |

## Left out

- The swapchain, image views, render pass, pipeline, framebuffers, command buffers and semaphores are
  only declared (src/shared/renderer/vulkan/vulkan_render_context.hpp:29-40). Their implementation is
  not part of this model. This also applies to the Vulkan backend's `ResizeScreen`, `PreRender`,
  `RenderFrame` and `SubmitRenderable`, and to logical-device creation.
- Every Vulkan, OpenGL and GLFW call is foreign. Instance creation, GLAD loading and device enumeration
  become inputs (`instanceCreated`, `gladLoaded`, `devices`). The other calls are no-ops, except that
  `RenderFrame` returns the draw it issues.
- `OpenGLRenderer.InitNewRenderData`: the vertex array, vertex buffer and shader program names are not
  modelled, because the driver assigns them. Shader compile and link errors are only logged, so
  nothing in the state records them.
- `OpenGLRenderContext::PreRender` only makes GL calls (viewport, clear colour, clear), so it has no
  state to model. The destructors only delete GL and Vulkan objects.
- `DEBUG_LOG`/`ERROR_LOG` output is left out, and so are the window, event-loop and editor UI code.
- Floating-point values are represented by exact numbers. The model never does arithmetic on them, and
  the triangle's coordinates (0, ±0.5, 1) are exact in binary32.
- `optional::operator!=` compares the object's address with a `T` (src/shared/utility/optional.hpp:15).
  It has no meaningful behaviour to model, so it is left out.
- `GoatOptional.Optional.Value`: what `Value()` returns while nothing is held is indeterminate in the
  source. The contract therefore says nothing about that case.
- `GoatOptional.Optional.Equals`: compares with Dafny's built-in equality on `T`, which is reflexive.
  The source calls `T::operator==` (src/shared/utility/optional.hpp:14), which need not be: for a
  float holding NaN, C++ says `o == NaN` is false after `o = NaN`. So the `Equals(rhs)` promised
  after `AssignCopy`/`AssignMove` holds only for element types whose `==` is reflexive. The template
  is not instantiated with any element type in the renderer.
- `OpenGLRenderer.OpenGLRenderContext.RenderFrame`: the draw count is an unbounded number. The source
  passes `verts.size()` as the 32-bit `GLsizei` count of `glDrawArrays`
  (src/shared/renderer/opengl/opengl_render_context.cpp:76). Batches of 2^31 vertices or more, whose
  count would not fit, are not modelled.
