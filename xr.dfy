/**
 * Vocabulary shared by both OpenXR applications: handles, session states,
 * runtime events, composition-layer descriptors and the calls the
 * applications make into the OpenXR runtime and OpenGL ES. Every runtime
 * or GL call is modelled as one entry of a ghost trace; whatever the call
 * returns (a success flag, a handle, an image count, the next event) is an
 * input of the operation that makes it.
 */
module Xr {

  datatype Option<T> = None | Some(value: T) {
    function GetOr(default: T): T {
      match this
      case Some(v) => v
      case None => default
    }
  }

  /** An OpenXR handle; 0 stands for XR_NULL_HANDLE. */
  type Handle = nat

  const NULL_HANDLE: Handle := 0

  /** A handle a successful create call returns: never XR_NULL_HANDLE. */
  type LiveHandle = h: nat | h != 0 witness 1

  /** The outcome of a runtime call that produces a value on success. */
  datatype Reply<T> = Ok(value: T) | Failed

  datatype SessionState =
    | Unknown | Idle | Ready | Synchronized | Visible | Focused
    | Stopping | LossPending | Exiting

  /** The event types the applications distinguish in xrPollEvent's buffer. */
  datatype Event =
    | StateChanged(state: SessionState)
    | InstanceLossPending
    | OtherEvent

  /**
   * One event delivered by a successful xrPollEvent, together with the
   * outcome xrBeginSession reports if handling this event calls it.
   */
  datatype Polled = Polled(event: Event, beginOk: bool)

  datatype Extent = Extent(width: nat, height: nat)

  datatype Vec3 = Vec3(x: real, y: real, z: real)

  datatype Quaternion = Quaternion(x: real, y: real, z: real, w: real)

  datatype Posef = Posef(orientation: Quaternion, position: Vec3)

  datatype Fovf = Fovf(angleLeft: real, angleRight: real, angleUp: real, angleDown: real)

  /** A view as xrLocateViews reports it. */
  datatype View = View(pose: Posef, fov: Fovf)

  /** One eye of a projection layer: where it was rendered and from where. */
  datatype ProjectionView = ProjectionView(
    pose: Posef, fov: Fovf, swapchain: Handle, extent: Extent, imageArrayIndex: nat)

  /** A composition-layer descriptor handed to xrEndFrame. */
  datatype Layer =
    | Quad(space: Handle, swapchain: Handle, extent: Extent, position: Vec3, width: real, height: real)
    | Projection(space: Handle, views: seq<ProjectionView>)

  /** One call into the runtime (xr*), into GL (gl*) or into the host activity. */
  datatype Call =
    | CreateInstance
    | GetSystem
    | EnumerateViewConfigurationViews
    | CreateSession
    | CreateReferenceSpace
    | CreateSwapchain(slot: nat, extent: Extent)
    | EnumerateSwapchainImages(slot: nat)
    | GenFramebuffers(slot: nat, count: nat)
    | AttachImage(slot: nat, image: nat)
    | CreateDepthBuffer(extent: Extent)
    | PollEvent
    | BeginSession
    | EndSession
    | FinishActivity
    | WaitFrame
    | BeginFrame
    | AcquireImage(slot: nat)
    | WaitImage(slot: nat)
    | RenderImage(slot: nat, extent: Extent)
    | ReleaseImage(slot: nat)
    | LocateViews
    | RenderEye(eye: nat, extent: Extent)
    | EndFrame(layers: seq<Layer>)
    | DestroySwapchain
    | DestroySpace
    | DestroySession
    | DestroyInstance

  /** Appending two pieces one after another is appending their concatenation. */
  lemma AppendTwo<T>(t: seq<T>, a: seq<T>, b: seq<T>)
    ensures t + a + b == t + (a + b)
  {
  }

  // ---------------------------------------------------------------------
  // Frame pairing: the xrBeginFrame / xrEndFrame calls of a trace

  /** No call in `t` is xrBeginFrame or xrEndFrame. */
  ghost predicate NoFrameCalls(t: seq<Call>) {
    forall c | c in t :: !c.BeginFrame? && !c.EndFrame?
  }

  /** The frame calls of `t` in order: true for a begin, false for an end. */
  ghost function FrameMarks(t: seq<Call>): seq<bool> {
    if t == [] then []
    else
      var last := t[|t| - 1];
      FrameMarks(t[..|t| - 1]) + (if last.BeginFrame? then [true] else if last.EndFrame? then [false] else [])
  }

  /** Begin, end, begin, end, ...: every begun frame is ended exactly once before the next begins. */
  ghost predicate Alternating(m: seq<bool>) {
    m == [] || (|m| >= 2 && m[0] && !m[1] && Alternating(m[2..]))
  }

  lemma {:induction false} FrameMarksAppend(a: seq<Call>, b: seq<Call>)
    ensures FrameMarks(a + b) == FrameMarks(a) + FrameMarks(b)
  {
    if b == [] {
      assert a + b == a;
    } else {
      var b' := b[..|b| - 1];
      assert (a + b)[..|a + b| - 1] == a + b';
      FrameMarksAppend(a, b');
    }
  }

  lemma {:induction false} NoFrameCallsHaveNoMarks(t: seq<Call>)
    requires NoFrameCalls(t)
    ensures FrameMarks(t) == []
  {
    if t != [] {
      assert t[|t| - 1] in t;
      assert forall c | c in t[..|t| - 1] :: c in t;
      NoFrameCallsHaveNoMarks(t[..|t| - 1]);
    }
  }

  lemma {:induction false} AlternatingAppend(a: seq<bool>, b: seq<bool>)
    requires Alternating(a) && Alternating(b)
    ensures Alternating(a + b)
  {
    if a != [] {
      assert (a + b)[2..] == a[2..] + b;
      AlternatingAppend(a[2..], b);
    } else {
      assert a + b == b;
    }
  }

  /** Appending calls that contain no frame call keeps the frame calls paired. */
  lemma PairingKeptByQuietCalls(t: seq<Call>, extra: seq<Call>)
    requires Alternating(FrameMarks(t)) && NoFrameCalls(extra)
    ensures Alternating(FrameMarks(t + extra))
  {
    FrameMarksAppend(t, extra);
    NoFrameCallsHaveNoMarks(extra);
    assert FrameMarks(t) + [] == FrameMarks(t);
  }

  /**
   * A frame whose calls are a wait, a begin, calls that are no frame calls,
   * and an end, keeps every begun frame ended exactly once.
   */
  lemma PairingKeptByFrame(t: seq<Call>, body: seq<Call>, layers: seq<Layer>)
    requires Alternating(FrameMarks(t)) && NoFrameCalls(body)
    ensures Alternating(FrameMarks(t + ([WaitFrame, BeginFrame] + body + [EndFrame(layers)])))
  {
    var frame := [WaitFrame, BeginFrame] + body + [EndFrame(layers)];
    FrameMarksAppend([WaitFrame, BeginFrame], body);
    FrameMarksAppend([WaitFrame, BeginFrame] + body, [EndFrame(layers)]);
    NoFrameCallsHaveNoMarks(body);
    assert FrameMarks([WaitFrame]) == [];
    assert FrameMarks([WaitFrame, BeginFrame]) == [true] by {
      assert [WaitFrame, BeginFrame][..1] == [WaitFrame];
    }
    assert FrameMarks([EndFrame(layers)]) == [false] by {
      assert [EndFrame(layers)][..0] == [];
    }
    assert FrameMarks(frame) == [true, false];
    assert Alternating([true, false]) by {
      assert [true, false][2..] == [];
    }
    FrameMarksAppend(t, frame);
    AlternatingAppend(FrameMarks(t), [true, false]);
  }

  // ---------------------------------------------------------------------
  // "The last event that says something": a reference definition that the
  // event handlers' step-by-step folds are proved against.

  /** The effect of the last event of `q` on which `effect` is defined, if any. */
  function LastEffect<T>(q: seq<Polled>, effect: Polled -> Option<T>): Option<T> {
    if q == [] then None
    else
      match LastEffect(q[1..], effect)
      case Some(v) => Some(v)
      case None => effect(q[0])
  }

  lemma {:induction false} LastEffectSnoc<T>(q: seq<Polled>, p: Polled, effect: Polled -> Option<T>)
    ensures LastEffect(q + [p], effect) == if effect(p).Some? then effect(p) else LastEffect(q, effect)
  {
    if q == [] {
      assert ([] + [p])[1..] == [];
    } else {
      assert (q + [p])[1..] == q[1..] + [p];
      LastEffectSnoc(q[1..], p, effect);
    }
  }

  /** The session state a state-change event announces. */
  function StateEffect(p: Polled): Option<SessionState> {
    if p.event.StateChanged? then Some(p.event.state) else None
  }
}
