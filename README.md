# OpenXR overlay and stereo apps: a Dafny model

This project models the control logic of two Android OpenXR applications
written in C++:

- **The overlay app** (`custom_monado_runtime.cpp`). Its state lives in an
  `OpenXrApp` record. It creates a fixed pool of four quad-layer swapchains
  once. It runs the session state machine from runtime events. Each frame it
  submits a cyan background quad and then reveals a blue, a magenta and a
  green overlay, one stage at a time, with a 0.5-second ease-in.
- **The stereo app** (`main.cpp`). Its state lives in globals. It initialises
  OpenXR as a chain of checked steps and handles session events. Each frame it
  renders both eyes into one two-layer swapchain and submits one projection
  layer. It tears everything down in a fixed order. It also has small
  column-major 4x4 matrix helpers.

Every OpenXR, OpenGL ES and activity call is treated as an oracle. What it
returns is an input to the model: a success flag, an event, an image count, a
`shouldRender` flag or the located views. Each call is also appended to a
ghost trace `seq<Call>`. Part of each application's object invariant is that
the trace's `xrBeginFrame` and `xrEndFrame` calls alternate. In other words,
every begun frame is ended exactly once before the next one begins.

Modules:

- `Xr` (`xr.dfy`) holds the shared OpenXR value types, the `Call` trace
  alphabet and the frame-pairing predicates. It also holds `LastEffect`, the
  "last event that says something" reference definition that both event
  handlers are proved against.
- `OverlayFrame` (`overlay_frame.dfy`) is the pure part of the overlay frame:
  the animation step, the ease-in scale and the quad layer list.
- `OverlayRuntime` (`overlay_runtime.dfy`) is the `OpenXrApp` class:
  `createSwapchains`, `pollEvents`, `renderFrame`, and the resume, pause and
  tap handlers.
- `StereoRuntime` (`stereo_runtime.dfy`) is the stereo app's globals as the
  `StereoApp` class: `initOpenXR`, `pollEvents`, `renderFrame` and `cleanup`.
- `Matrix` (`matrix.dfy`) has `matrix_identity`, `matrix_translate` and
  `matrix_multiply` over arrays of `real`, each with the pure function that
  specifies it.

Three behaviours of the code are easy to miss:

- `createSwapchains` never checks the result of `xrCreateSwapchain`
  (custom_monado_runtime.cpp:211) and always returns true
  (custom_monado_runtime.cpp:197, 229).
- When the animation enters stage 3, the green layer is submitted at scale 0
  on that frame, because the scale is timer / 0.5 and the timer was just reset
  (custom_monado_runtime.cpp:268-271, 341). It reaches full size 31 frames
  later.
- The overlay's `pollEvents` reacts only to session-state-change events
  (custom_monado_runtime.cpp:235-255), so it ignores instance loss. Only the
  stereo app clears `sessionRunning` on
  `XR_TYPE_EVENT_DATA_INSTANCE_LOSS_PENDING` (main.cpp:497-501).

## Model

| member | source | states |
|---|---|---|
| Matrix.Identity | app/src/main/cpp/main.cpp:101-106 | the identity matrix has 1 on the diagonal and 0 everywhere else, read through the column-major layout |
| Matrix.Translate | app/src/main/cpp/main.cpp:119-124 | a translation agrees with the identity in columns 0-2 and has (x, y, z, 1) as its fourth column |
| Matrix.IndexInjective | app/src/main/cpp/main.cpp:108-117 | the column-major index col*4+row gives distinct storage slots to distinct (row, col) pairs |
| Matrix.PartialSumComplete | app/src/main/cpp/main.cpp:110-115 | the four accumulated products r[i*4+j] += a[k*4+j]*b[i*4+k] add up to row j of a times column i of b |
| Matrix.IdentityLeftUnit | app/src/main/cpp/main.cpp:101-117 | identity * b equals b, element by element |
| Matrix.IdentityRightUnit | app/src/main/cpp/main.cpp:101-117 | a * identity equals a, element by element |
| Matrix.TranslateCompose | app/src/main/cpp/main.cpp:108-124 | the product of two translations is the translation by the sum of their offsets |
| Matrix.MatrixIdentity | app/src/main/cpp/main.cpp:101-106 | after the 16 writes the array holds exactly the identity |
| Matrix.MatrixTranslate | app/src/main/cpp/main.cpp:119-124 | after writing the identity and overwriting elements 12-14, the array is the translation by (x, y, z) |
| Matrix.AccumulateEntry | app/src/main/cpp/main.cpp:110-115 | the innermost loop leaves r[i*4+j] equal to the (j, i) entry of a*b and changes no other element of r |
| Matrix.MatrixMultiply | app/src/main/cpp/main.cpp:108-117 | afterwards every element (row, col) of r is the (row, col) entry of the column-major product a*b |
| Xr.PairingKeptByFrame | app/src/main/cpp/custom_monado_runtime.cpp:273-352 | a frame of wait, begin, non-frame calls and end keeps every begun frame ended exactly once |
| OverlayFrame.NextAnimation | app/src/main/cpp/custom_monado_runtime.cpp:264-271 | one step raises the stage by exactly 1 iff timer+0.0166 exceeds 1.2 and the stage is below 4, with the timer reset to 0; otherwise the stage stays and the timer grows by 0.0166; the stage stays in [0, 4] |
| OverlayFrame.FramesKeepStageInRange | app/src/main/cpp/custom_monado_runtime.cpp:264-271 | over any number of frames the stage stays in [0, 4], the timer stays non-negative and the stage never decreases |
| OverlayFrame.FramesAdd | app/src/main/cpp/custom_monado_runtime.cpp:264-271 | m frames followed by n frames is m+n frames |
| OverlayFrame.TimerRamp | app/src/main/cpp/custom_monado_runtime.cpp:266-271 | from the start of a stage, the timer after k < 73 frames is k*0.0166 in the same stage |
| OverlayFrame.StageLastsDwellFrames | app/src/main/cpp/custom_monado_runtime.cpp:266-271 | a stage below 4 lasts exactly 73 frames and then the next stage starts with timer 0 |
| OverlayFrame.StageEnds | app/src/main/cpp/custom_monado_runtime.cpp:266-271 | the 73rd frame of a stage below 4 enters the next stage with the timer at 0 |
| OverlayFrame.StageStep | app/src/main/cpp/custom_monado_runtime.cpp:266-271 | from any history that reaches the start of stage s < 4, 73 more frames reach the start of stage s+1 |
| OverlayFrame.StageAfterReset | app/src/main/cpp/custom_monado_runtime.cpp:266-271 | after a reset, stage s (s <= 4) starts after exactly s*73 frames |
| OverlayFrame.EaseScale | app/src/main/cpp/custom_monado_runtime.cpp:319 | the scale is min(1, timer/0.5) for the overlay being revealed and 1 for every other overlay; it lies in [0, 1] for a non-negative timer |
| OverlayFrame.EaseScaleMonotone | app/src/main/cpp/custom_monado_runtime.cpp:319 | an overlay's scale never shrinks as the timer grows |
| OverlayFrame.Revealed | app/src/main/cpp/custom_monado_runtime.cpp:313-344 | overlay k (1..3) is revealed iff the stage is at least k, so min(stage, 3) overlays are shown |
| OverlayFrame.QuadLayers | app/src/main/cpp/custom_monado_runtime.cpp:302-344 | a rendered frame has 1 + min(stage, 3) quads: the background first, then overlay k iff stage >= k, in ascending slot order, each in the app space at its slot's fixed swapchain size |
| OverlayFrame.SubmittedLayers | app/src/main/cpp/custom_monado_runtime.cpp:279-352 | the layer list is empty when the frame should not render, and otherwise starts with the background quad |
| OverlayFrame.FrameAfterResetShowsBackgroundOnly | app/src/main/cpp/custom_monado_runtime.cpp:264-311 | the first frame after a tap submits only the background |
| OverlayFrame.AllLayersAfterThreeStages | app/src/main/cpp/custom_monado_runtime.cpp:264-344 | 3*73 frames after a reset all four layers are submitted, with the green one at scale 0; 31 frames later every overlay is at full size |
| OverlayRuntime.HandleEvent | app/src/main/cpp/custom_monado_runtime.cpp:234-257 | one event keeps "running implies swapchains exist", never destroys the swapchain pool and never withdraws a finish request |
| OverlayRuntime.AfterEventsState | app/src/main/cpp/custom_monado_runtime.cpp:235-237 | sessionState is the state of the last state-change event, or unchanged when there is none |
| OverlayRuntime.AfterEventsRunning | app/src/main/cpp/custom_monado_runtime.cpp:239-250 | sessionRunning is decided by the last READY with a successful begin (true) or STOPPING (false); a failed begin and other events leave it as it was |
| OverlayRuntime.AfterEventsCreated | app/src/main/cpp/custom_monado_runtime.cpp:239-246 | the swapchains exist afterwards iff they existed before or some READY's begin succeeded |
| OverlayRuntime.AfterEventsFinishing | app/src/main/cpp/custom_monado_runtime.cpp:251-253 | the activity is asked to finish iff it already was or some EXITING event came |
| OverlayRuntime.AfterEventsRunningHasSwapchains | app/src/main/cpp/custom_monado_runtime.cpp:239-250 | whatever events come, a running session has its swapchains |
| OverlayRuntime.AttachCalls | app/src/main/cpp/custom_monado_runtime.cpp:220-223 | image j of the slot is attached at position j, for every image in order |
| OverlayRuntime.SlotCallsFit | app/src/main/cpp/custom_monado_runtime.cpp:200-224 | one slot's calls create its swapchain at the slot's fixed size and attach only images the runtime reported |
| OverlayRuntime.SwapchainCallsFit | app/src/main/cpp/custom_monado_runtime.cpp:200-224 | creating the pool makes no frame call, never varies a swapchain's size and attaches only reported images |
| OverlayRuntime.EventCallsFit | app/src/main/cpp/custom_monado_runtime.cpp:234-257 | one event's handling makes no frame call and creates swapchains only as the replies allow |
| OverlayRuntime.HandledCallsSnoc | app/src/main/cpp/custom_monado_runtime.cpp:234-258 | handling one more event appends its calls, made in the state the earlier events left |
| OverlayRuntime.HandledCallsQuiet | app/src/main/cpp/custom_monado_runtime.cpp:232-259 | pollEvents never begins or ends a frame and creates swapchains only as the replies allow |
| OverlayRuntime.NoSecondSwapchainPool | app/src/main/cpp/custom_monado_runtime.cpp:196-197 | once the swapchains exist, no later event creates another swapchain, however many sessions begin |
| OverlayRuntime.SlotPassesQuiet | app/src/main/cpp/custom_monado_runtime.cpp:288-299 | the render passes make no frame call and render each slot's image at that slot's fixed size |
| OverlayRuntime.SlotPassesInOrder | app/src/main/cpp/custom_monado_runtime.cpp:288-299 | each slot gets exactly one acquire-wait-render-release pass, in ascending slot order |
| OverlayRuntime.OpenXrApp.constructor | app/src/main/cpp/custom_monado_runtime.cpp:26-51 | a zero-initialised OpenXrApp: not resumed, not running, stage 0, timer 0, null handles, empty framebuffer lists, no swapchains |
| OverlayRuntime.OpenXrApp.CreateSlot | app/src/main/cpp/custom_monado_runtime.cpp:200-224 | slot i holds the returned swapchain and exactly one framebuffer per reported image, framebuffer j on image j; the other slots are unchanged |
| OverlayRuntime.OpenXrApp.CreateSwapchains | app/src/main/cpp/custom_monado_runtime.cpp:196-230 | returns true and sets swapchainsCreated; once set, a call changes nothing; the first call fills all 4 slots, with framebuffers[i] as long as swapchain i's image count |
| OverlayRuntime.OpenXrApp.BeginReady | app/src/main/cpp/custom_monado_runtime.cpp:239-246 | READY begins the session; a successful begin sets sessionRunning and creates the pool if it does not exist yet; a failed begin changes neither |
| OverlayRuntime.OpenXrApp.HandlePolled | app/src/main/cpp/custom_monado_runtime.cpp:235-257 | one delivered event updates the status exactly as HandleEvent says and makes that event's calls |
| OverlayRuntime.OpenXrApp.PollEvents | app/src/main/cpp/custom_monado_runtime.cpp:232-259 | the status after the loop is the fold of HandleEvent over the queue, the calls are each event's calls then the final empty poll, and the pool is only ever created once |
| OverlayRuntime.OpenXrApp.BuildLayers | app/src/main/cpp/custom_monado_runtime.cpp:302-344 | the pushed quads are exactly QuadLayers of the current animation |
| OverlayRuntime.OpenXrApp.AdvanceAnimation | app/src/main/cpp/custom_monado_runtime.cpp:264-271 | the animation fields take one NextAnimation step |
| OverlayRuntime.OpenXrApp.RenderFrame | app/src/main/cpp/custom_monado_runtime.cpp:261-353 | nothing changes unless running, created and resumed; otherwise one animation step, then wait, begin, the slot passes if rendering, and one end with SubmittedLayers, keeping frames paired |
| OverlayRuntime.OpenXrApp.OnAppCmd | app/src/main/cpp/custom_monado_runtime.cpp:370-374 | RESUME sets resumed, PAUSE clears it, and any other command leaves it alone |
| OverlayRuntime.OpenXrApp.OnInputEvent | app/src/main/cpp/custom_monado_runtime.cpp:377-389 | a motion ACTION_DOWN resets stage and timer to 0 and changes nothing else; motion events are reported handled and others not |
| StereoRuntime.InitStopsAtFirstFailure | app/src/main/cpp/main.cpp:273-321 | each step's call is made iff every earlier checked step succeeded; the image queries and framebuffer follow iff all five succeeded |
| StereoRuntime.InitSwapchainSizedLikeFirstView | app/src/main/cpp/main.cpp:301-335 | a swapchain is requested iff the reference space was created, sized like view 0, and the depth buffer has that size too |
| StereoRuntime.InitCallsArePrefix | app/src/main/cpp/main.cpp:273-335 | a failing run's calls are a prefix of a fully successful run's calls |
| StereoRuntime.InitCallsQuiet | app/src/main/cpp/main.cpp:257-340 | initialisation makes no frame call |
| StereoRuntime.Resize | app/src/main/cpp/main.cpp:286-288 | vector::resize keeps the first n elements and pads with the default value up to n |
| StereoRuntime.HandleEvent | app/src/main/cpp/main.cpp:484-501 | an event sets sessionState when it announces a state and sets sessionRunning exactly as its running effect says |
| StereoRuntime.AfterEventsState | app/src/main/cpp/main.cpp:484-487 | sessionState is the state of the last state-change event, or unchanged when there is none |
| StereoRuntime.AfterEventsRunning | app/src/main/cpp/main.cpp:488-501 | sessionRunning is decided by the last READY with a successful begin (true), STOPPING (false) or instance loss (false) |
| StereoRuntime.InstanceLossStops | app/src/main/cpp/main.cpp:497-501 | an instance loss as the last event leaves the session not running |
| StereoRuntime.HandledCallsQuiet | app/src/main/cpp/main.cpp:478-508 | pollEvents never begins or ends a frame |
| StereoRuntime.BeginSessionOnReady | app/src/main/cpp/main.cpp:488-492 | xrBeginSession is called iff some delivered event announces READY |
| StereoRuntime.ProjectionViews | app/src/main/cpp/main.cpp:452-458 | one projection view per located eye: view eye has the located pose and fov, the swapchain, the eye's recommended extent and imageArrayIndex eye |
| StereoRuntime.StereoLayersShape | app/src/main/cpp/main.cpp:464-473 | no layer when the frame should not render, otherwise exactly one projection layer in the app space, with viewCount equal to the located views and view eye at array layer eye and recommended extent |
| StereoRuntime.EyePasses | app/src/main/cpp/main.cpp:396-459 | one render pass per located eye, in eye order, at that eye's recommended size |
| StereoRuntime.RenderCallsQuiet | app/src/main/cpp/main.cpp:382-462 | the image acquire, view location, eye passes and release make no frame call |
| StereoRuntime.CleanupCallsQuiet | app/src/main/cpp/main.cpp:342-366 | cleanup makes no frame call |
| StereoRuntime.CleanupMembers | app/src/main/cpp/main.cpp:345-357 | the session is ended iff it runs, and each of swapchain, space, session and instance is destroyed iff its handle is not null |
| StereoRuntime.CleanupOrder | app/src/main/cpp/main.cpp:345-357 | the teardown calls come strictly in the order end session, swapchain, space, session, instance, so none is made twice |
| StereoRuntime.StereoApp.constructor | app/src/main/cpp/main.cpp:26-59 | the globals at start: null handles, not running, state UNKNOWN, empty view vectors |
| StereoRuntime.StereoApp.InitOpenXR | app/src/main/cpp/main.cpp:257-340 | returns true iff all five checked steps succeed; each handle is set iff its step was reached and succeeded; once the system is found, the three view vectors are resized to the reported view count; the calls are exactly InitCalls |
| StereoRuntime.StereoApp.CreateSessionObjects | app/src/main/cpp/main.cpp:295-335 | session, space and swapchain are created in order, stopping at the first failure; the image count is recorded only on success |
| StereoRuntime.StereoApp.PollEvents | app/src/main/cpp/main.cpp:478-508 | with a null instance nothing changes; otherwise the status is the fold of HandleEvent over the queue and the calls are each event's calls then the final empty poll |
| StereoRuntime.StereoApp.RenderEyes | app/src/main/cpp/main.cpp:396-459 | projection view eye is set for each located eye and the other eyes' views are untouched; one pass per eye |
| StereoRuntime.StereoApp.RenderFrame | app/src/main/cpp/main.cpp:370-476 | nothing changes when not running; otherwise exactly one wait, begin and end in that order, the located views are stored, each located eye's projection view is set, and StereoLayers is submitted |
| StereoRuntime.StereoApp.Cleanup | app/src/main/cpp/main.cpp:342-366 | the calls are exactly CleanupCalls of the current running flag and handles, and frames stay paired |

## Left out

- EGL setup, shader compilation, VAO/VBO setup and every GL draw, clear, viewport and uniform call are left out. So are the GL and EGL deletes in `cleanup`. These are foreign graphics calls. A whole eye or slot pass appears as one trace entry (`RenderEye`, `RenderImage`), and the depth buffer as `CreateDepthBuffer`.
- `matrix_create_projection_from_fov` and `matrix_create_view_from_pose` are left out. They are `tanf` and quaternion float arithmetic, and their matrices feed only GL uniforms, which are left out too.
- Floating point is modelled as `real`. The stage timer, the ease-in, matrix elements and poses are all compared exactly, so float rounding is not modelled.
- The `ALooper_pollOnce` loops, `handleAppCmd`'s initialisation order and both `android_main` functions are left out. They are host event plumbing. Only the flag effects of RESUME, PAUSE and tap are kept, as `OnAppCmd` and `OnInputEvent`.
- The overlay's `initializeOpenXR` and `createSession` are not part of this model, and neither is the teardown at the end of its `android_main`. They are setup and teardown around the modelled core.
- GL framebuffer names are abstracted. A framebuffer is known only by the swapchain image attached to it.
- The acquired image index is not modelled. Which of the swapchain's images a frame renders into is the runtime's choice and does not affect the submitted layers.
- The display time, the blend mode and the predicted display time of `xrLocateViews` are left out. They are passed through from the runtime without any decision.
- The results of unchecked calls are left out: `xrWaitFrame`, `xrBeginFrame`, the image calls, `xrEndSession` and the view and image enumerations. The code ignores them, and so does the model. The result of the overlay's `xrCreateSwapchain` is likewise not checked.
- OverlayRuntime.OpenXrApp.CreateSlot, OverlayRuntime.OpenXrApp.BeginReady, OverlayRuntime.OpenXrApp.HandlePolled, OverlayRuntime.OpenXrApp.BuildLayers and OverlayRuntime.OpenXrApp.AdvanceAnimation are pieces of one source function that are written as helper methods. This keeps each proof small. They are, in order, a loop body of `createSwapchains`, the READY case and the loop body of `pollEvents`, and the layer assembly and animation step of `renderFrame`.
- StereoRuntime.StereoApp.CreateSessionObjects, StereoRuntime.StereoApp.RenderEyes and Matrix.AccumulateEntry are likewise the tail of `initOpenXR`, the eye loop of `renderFrame` and the innermost loop of `matrix_multiply`.
- Matrix.MatrixMultiply requires the output array to be distinct from both inputs. Every call site passes a separate output array, and the in-place aliasing case is not modelled.
- StereoRuntime.StereoApp.InitOpenXR requires a non-empty view list whenever the swapchain step is reached. The code reads `viewConfigViews[0]` without checking the count, which is undefined behaviour when the runtime reports no views.
- StereoRuntime.StereoApp.RenderFrame requires the located view count to be at most the size of `views`. `xrLocateViews` is given that capacity and never reports more.
- StereoRuntime.StereoApp.Cleanup leaves `sessionRunning` and the handles as they are, as the code does. The model does not represent a second cleanup.
- Constant layer fields are not modelled. Every quad's pose orientation is the identity quaternion {0,0,0,1} and its sub-image rectangle offset is {0,0} (custom_monado_runtime.cpp:302-344). A `Quad` carries only the fields that vary per slot or per frame: space, swapchain, extent, position and size.
