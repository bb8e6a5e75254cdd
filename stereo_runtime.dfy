/**
 * The stereo application (main.cpp): its global OpenXR state, the
 * initialisation chain that stops at the first failing runtime call, the
 * session event handler, the frame loop that submits one projection layer
 * with one view per located eye, and the teardown. The globals of the
 * source file are the fields of one `StereoApp` object.
 */
module StereoRuntime {
  import opened Xr

  // ---------------------------------------------------------------------
  // initOpenXR

  /**
   * What the runtime answers during initOpenXR. `viewConfigs` is the
   * recommended image size of each view that xrEnumerateViewConfigurationViews
   * reports; `imageCount` is what xrEnumerateSwapchainImages reports.
   */
  datatype InitReplies = InitReplies(
    instance: Reply<LiveHandle>,
    system: Reply<LiveHandle>,
    viewConfigs: seq<Extent>,
    session: Reply<LiveHandle>,
    space: Reply<LiveHandle>,
    swapchain: Reply<LiveHandle>,
    imageCount: nat)

  /** The checked steps of initOpenXR: instance, system, session, reference space, swapchain. */
  const INIT_STEPS: nat := 5

  /** The first k checked steps all succeeded: step k is attempted (for k == 5: initOpenXR succeeds). */
  predicate Reached(r: InitReplies, k: nat) {
    && (k > 0 ==> r.instance.Ok?)
    && (k > 1 ==> r.system.Ok?)
    && (k > 2 ==> r.session.Ok?)
    && (k > 3 ==> r.space.Ok?)
    && (k > 4 ==> r.swapchain.Ok?)
  }

  /**
   * The calls initOpenXR makes: each step only once every earlier step
   * succeeded. The two view-configuration queries come with the session
   * step and the image queries, the framebuffer and the depth buffer
   * (sized like view 0) follow a successful swapchain step.
   */
  function InitCalls(r: InitReplies): seq<Call>
    requires Reached(r, 4) ==> r.viewConfigs != []
  {
    [CreateInstance]
    + (if Reached(r, 1) then [GetSystem] else [])
    + (if Reached(r, 2) then [EnumerateViewConfigurationViews, EnumerateViewConfigurationViews, CreateSession] else [])
    + SessionObjectCalls(r)
  }

  /** The calls after the session is created: reference space, swapchain, its images, framebuffer and depth buffer. */
  function SessionObjectCalls(r: InitReplies): seq<Call>
    requires Reached(r, 4) ==> r.viewConfigs != []
  {
    (if Reached(r, 3) then [CreateReferenceSpace] else [])
    + (if Reached(r, 4) then [CreateSwapchain(0, r.viewConfigs[0])] else [])
    + (if Reached(r, 5) then
         [EnumerateSwapchainImages(0), EnumerateSwapchainImages(0), GenFramebuffers(0, 1), CreateDepthBuffer(r.viewConfigs[0])]
       else [])
  }

  /** The calls of initOpenXR up to the session: instance, system, the two view queries, session. */
  const INIT_FRONT: seq<Call> :=
    [CreateInstance, GetSystem, EnumerateViewConfigurationViews, EnumerateViewConfigurationViews, CreateSession]

  /**
   * initOpenXR's calls when it stops at the instance or at the system, and
   * once the system is found: the calls up to the session, then the
   * session objects'.
   */
  lemma InitCallsShape(r: InitReplies)
    requires Reached(r, 4) ==> r.viewConfigs != []
    ensures !r.instance.Ok? ==> InitCalls(r) == [CreateInstance]
    ensures r.instance.Ok? && !r.system.Ok? ==> InitCalls(r) == [CreateInstance, GetSystem]
    ensures Reached(r, 2) ==> InitCalls(r) == INIT_FRONT + SessionObjectCalls(r)
    ensures NoFrameCalls(INIT_FRONT)
  {
  }

  /** The session objects' calls for each step at which initOpenXR can stop after the system is found. */
  lemma SessionObjectCallsShape(r: InitReplies)
    requires Reached(r, 2) && (Reached(r, 4) ==> r.viewConfigs != [])
    ensures !r.session.Ok? ==> SessionObjectCalls(r) == []
    ensures r.session.Ok? && !r.space.Ok? ==> SessionObjectCalls(r) == [CreateReferenceSpace]
    ensures Reached(r, 4) && !r.swapchain.Ok? ==>
      SessionObjectCalls(r) == [CreateReferenceSpace, CreateSwapchain(0, r.viewConfigs[0])]
    ensures Reached(r, 5) ==>
      SessionObjectCalls(r) == [CreateReferenceSpace, CreateSwapchain(0, r.viewConfigs[0]),
        EnumerateSwapchainImages(0), EnumerateSwapchainImages(0), GenFramebuffers(0, 1), CreateDepthBuffer(r.viewConfigs[0])]
  {
  }

  /**
   * initOpenXR stops at the first failing step: a step's call is made iff
   * every earlier step succeeded.
   */
  lemma InitStopsAtFirstFailure(r: InitReplies)
    requires Reached(r, 4) ==> r.viewConfigs != []
    ensures CreateInstance in InitCalls(r)
    ensures GetSystem in InitCalls(r) <==> r.instance.Ok?
    ensures CreateSession in InitCalls(r) <==> r.instance.Ok? && r.system.Ok?
    ensures CreateReferenceSpace in InitCalls(r) <==> r.instance.Ok? && r.system.Ok? && r.session.Ok?
    ensures GenFramebuffers(0, 1) in InitCalls(r) <==>
      r.instance.Ok? && r.system.Ok? && r.session.Ok? && r.space.Ok? && r.swapchain.Ok?
  {
    InitCallsShape(r);
    if Reached(r, 2) {
      SessionObjectCallsShape(r);
    }
  }

  /**
   * A swapchain is requested iff the reference space was created, and it
   * is sized like the first view; the depth buffer is sized the same way.
   */
  lemma InitSwapchainSizedLikeFirstView(r: InitReplies)
    requires Reached(r, 4) ==> r.viewConfigs != []
    ensures (exists c | c in InitCalls(r) :: c.CreateSwapchain?) <==> Reached(r, 4)
    ensures Reached(r, 4) ==> CreateSwapchain(0, r.viewConfigs[0]) in InitCalls(r)
    ensures Reached(r, 5) ==> CreateDepthBuffer(r.viewConfigs[0]) in InitCalls(r)
  {
    InitCallsShape(r);
    if Reached(r, 2) {
      SessionObjectCallsShape(r);
      if !Reached(r, 4) {
        assert forall c | c in InitCalls(r) :: !c.CreateSwapchain?;
      } else {
        var c := CreateSwapchain(0, r.viewConfigs[0]);
        assert c in InitCalls(r) && c.CreateSwapchain?;
      }
    }
  }

  /** The same replies with every checked step succeeding. */
  function Unfailing(r: InitReplies): (u: InitReplies)
    ensures Reached(u, INIT_STEPS) && u.viewConfigs == r.viewConfigs
  {
    r.(instance := Ok(1), system := Ok(1), session := Ok(1), space := Ok(1), swapchain := Ok(1))
  }

  /** A failure only cuts the call sequence short: what is made is a prefix of a successful run's calls. */
  lemma InitCallsArePrefix(r: InitReplies)
    requires r.viewConfigs != []
    ensures InitCalls(r) <= InitCalls(Unfailing(r))
  {
  }

  /** initOpenXR makes no frame call. */
  lemma InitCallsQuiet(r: InitReplies)
    requires Reached(r, 4) ==> r.viewConfigs != []
    ensures NoFrameCalls(InitCalls(r)) && NoFrameCalls(SessionObjectCalls(r))
  {
  }

  /** std::vector::resize: keep the first n elements, pad with `fill` up to n. */
  function Resize<T>(s: seq<T>, n: nat, fill: T): (r: seq<T>)
    ensures |r| == n
    ensures forall i :: 0 <= i < n ==> r[i] == if i < |s| then s[i] else fill
  {
    if n <= |s| then s[..n] else s + seq(n - |s|, _ => fill)
  }

  /** A value-initialised XrView and XrCompositionLayerProjectionView: all zero. */
  const NO_VIEW: View := View(Posef(Quaternion(0.0, 0.0, 0.0, 0.0), Vec3(0.0, 0.0, 0.0)), Fovf(0.0, 0.0, 0.0, 0.0))

  const NO_PROJECTION_VIEW: ProjectionView := ProjectionView(NO_VIEW.pose, NO_VIEW.fov, NULL_HANDLE, Extent(0, 0), 0)

  // ---------------------------------------------------------------------
  // pollEvents

  /** The globals that session events change. */
  datatype SessionStatus = SessionStatus(state: SessionState, running: bool)

  /**
   * How an event decides sessionRunning, when it does: a begun session
   * runs; a stopping session and a pending instance loss do not.
   */
  function RunningEffect(p: Polled): Option<bool> {
    if p.event == StateChanged(Ready) && p.beginOk then Some(true)
    else if p.event == StateChanged(Stopping) || p.event == InstanceLossPending then Some(false)
    else None
  }

  /** The handling of one event in pollEvents. */
  function HandleEvent(s: SessionStatus, p: Polled): (r: SessionStatus)
    ensures r.state == StateEffect(p).GetOr(s.state)
    ensures r.running == RunningEffect(p).GetOr(s.running)
  {
    match p.event
    case StateChanged(state) =>
      if state == Ready then SessionStatus(state, s.running || p.beginOk)
      else if state == Stopping then SessionStatus(state, false)
      else SessionStatus(state, s.running)
    case InstanceLossPending => s.(running := false)
    case OtherEvent => s
  }

  /** The status after handling the events of `q` in order. */
  function AfterEvents(s: SessionStatus, q: seq<Polled>): SessionStatus {
    if q == [] then s else HandleEvent(AfterEvents(s, q[..|q| - 1]), q[|q| - 1])
  }

  /** sessionState holds the state of the last state-change event, if there was one. */
  lemma {:induction false} AfterEventsState(s: SessionStatus, q: seq<Polled>)
    ensures AfterEvents(s, q).state == LastEffect(q, StateEffect).GetOr(s.state)
  {
    if q != [] {
      var init, p := q[..|q| - 1], q[|q| - 1];
      AfterEventsState(s, init);
      assert q == init + [p];
      LastEffectSnoc(init, p, StateEffect);
    }
  }

  /**
   * sessionRunning is true after a READY whose begin succeeded and false
   * after a STOPPING or an instance loss, whichever came last.
   */
  lemma {:induction false} AfterEventsRunning(s: SessionStatus, q: seq<Polled>)
    ensures AfterEvents(s, q).running == LastEffect(q, RunningEffect).GetOr(s.running)
  {
    if q != [] {
      var init, p := q[..|q| - 1], q[|q| - 1];
      AfterEventsRunning(s, init);
      assert q == init + [p];
      LastEffectSnoc(init, p, RunningEffect);
    }
  }

  /** An instance loss as the last event leaves the session not running, whatever came before. */
  lemma InstanceLossStops(s: SessionStatus, q: seq<Polled>, p: Polled)
    requires p.event == InstanceLossPending
    ensures !AfterEvents(s, q + [p]).running
  {
    assert (q + [p])[..|q + [p]| - 1] == q;
  }

  /** The calls made for one delivered event: the poll that delivered it, then the handler's. */
  function EventCalls(p: Polled): seq<Call> {
    [PollEvent] +
    match p.event
    case StateChanged(Ready) => [BeginSession]
    case StateChanged(Stopping) => [EndSession]
    case _ => []
  }

  /** The calls made while handling the events of `q` in order. */
  function HandledCalls(q: seq<Polled>): seq<Call> {
    if q == [] then [] else HandledCalls(q[..|q| - 1]) + EventCalls(q[|q| - 1])
  }

  /** Handling events makes no frame call. */
  lemma {:induction false} HandledCallsQuiet(q: seq<Polled>)
    ensures NoFrameCalls(HandledCalls(q))
  {
    if q != [] {
      HandledCallsQuiet(q[..|q| - 1]);
    }
  }

  /** xrBeginSession is called iff some delivered event announces READY. */
  lemma {:induction false} BeginSessionOnReady(q: seq<Polled>)
    ensures BeginSession in HandledCalls(q) <==> exists i :: 0 <= i < |q| && q[i].event == StateChanged(Ready)
  {
    if q != [] {
      var init := q[..|q| - 1];
      BeginSessionOnReady(init);
      if exists i :: 0 <= i < |init| && init[i].event == StateChanged(Ready) {
        var i :| 0 <= i < |init| && init[i].event == StateChanged(Ready);
        assert q[i] == init[i];
      }
      if exists i :: 0 <= i < |q| && q[i].event == StateChanged(Ready) {
        var i :| 0 <= i < |q| && q[i].event == StateChanged(Ready);
        if i < |init| {
          assert init[i] == q[i];
        }
      }
    }
  }

  // ---------------------------------------------------------------------
  // renderFrame

  /** The projection view of eye `eye`: the located pose and field of view, the whole recommended image, array layer `eye`. */
  function EyeView(eye: nat, view: View, extent: Extent, swapchain: Handle): ProjectionView {
    ProjectionView(view.pose, view.fov, swapchain, extent, eye)
  }

  /** The projection views of the located eyes, in eye order. */
  function ProjectionViews(swapchain: Handle, located: seq<View>, extents: seq<Extent>): (pvs: seq<ProjectionView>)
    requires |located| <= |extents|
    ensures |pvs| == |located|
    ensures forall eye :: 0 <= eye < |pvs| ==>
      && pvs[eye].imageArrayIndex == eye && pvs[eye].extent == extents[eye] && pvs[eye].swapchain == swapchain
      && pvs[eye].pose == located[eye].pose && pvs[eye].fov == located[eye].fov
  {
    seq(|located|, eye requires 0 <= eye < |located| => EyeView(eye, located[eye], extents[eye], swapchain))
  }

  /** The layers handed to xrEndFrame: one projection layer when the frame should render, none otherwise. */
  function StereoLayers(shouldRender: bool, space: Handle, swapchain: Handle, located: seq<View>, extents: seq<Extent>): seq<Layer>
    requires |located| <= |extents|
  {
    if shouldRender then [Projection(space, ProjectionViews(swapchain, located, extents))] else []
  }

  /**
   * The submitted layer list is empty when the frame should not render and
   * otherwise one projection layer with a view per located eye, view `eye`
   * rendered into array layer `eye` at that eye's recommended size.
   */
  lemma StereoLayersShape(shouldRender: bool, space: Handle, swapchain: Handle, located: seq<View>, extents: seq<Extent>)
    requires |located| <= |extents|
    ensures var layers := StereoLayers(shouldRender, space, swapchain, located, extents);
      && |layers| == (if shouldRender then 1 else 0)
      && (shouldRender ==>
            && layers[0].Projection? && layers[0].space == space && |layers[0].views| == |located|
            && forall eye :: 0 <= eye < |located| ==>
                 layers[0].views[eye].imageArrayIndex == eye && layers[0].views[eye].extent == extents[eye])
  {
  }

  /** The per-eye render passes for eyes 0 .. n-1, in eye order. */
  function EyePasses(n: nat, extents: seq<Extent>): (r: seq<Call>)
    requires n <= |extents|
    ensures |r| == n && forall eye :: 0 <= eye < n ==> r[eye] == RenderEye(eye, extents[eye])
  {
    if n == 0 then [] else EyePasses(n - 1, extents) + [RenderEye(n - 1, extents[n - 1])]
  }

  /** Between begin and end: the image is acquired and waited for, views located, each eye rendered, the image released. */
  function RenderCalls(shouldRender: bool, eyes: nat, extents: seq<Extent>): seq<Call>
    requires eyes <= |extents|
  {
    if shouldRender then [AcquireImage(0), WaitImage(0), LocateViews] + EyePasses(eyes, extents) + [ReleaseImage(0)]
    else []
  }

  /** Rendering makes no frame call. */
  lemma RenderCallsQuiet(shouldRender: bool, eyes: nat, extents: seq<Extent>)
    requires eyes <= |extents|
    ensures NoFrameCalls(RenderCalls(shouldRender, eyes, extents))
  {
    var passes := EyePasses(eyes, extents);
    assert forall c | c in passes :: c.RenderEye?;
  }

  // ---------------------------------------------------------------------
  // cleanup

  /** The call `c` when `cond` holds, nothing otherwise. */
  function When(cond: bool, c: Call): (r: seq<Call>)
    ensures |r| <= 1
    ensures forall x :: x in r <==> cond && x == c
  {
    if cond then [c] else []
  }

  /** The runtime calls cleanup makes: end a running session, then destroy every non-null handle, newest first. */
  function CleanupCalls(running: bool, swapchain: Handle, space: Handle, session: Handle, instance: Handle): seq<Call> {
    When(running, EndSession)
    + When(swapchain != NULL_HANDLE, DestroySwapchain)
    + When(space != NULL_HANDLE, DestroySpace)
    + When(session != NULL_HANDLE, DestroySession)
    + When(instance != NULL_HANDLE, DestroyInstance)
  }

  /** The position of a teardown call in cleanup's fixed order. */
  function TeardownRank(c: Call): nat {
    match c
    case EndSession => 0
    case DestroySwapchain => 1
    case DestroySpace => 2
    case DestroySession => 3
    case DestroyInstance => 4
    case _ => 5
  }

  /** Every call of `s` ranks strictly before each later one. */
  predicate StrictlyRanked(s: seq<Call>) {
    forall i, j :: 0 <= i < j < |s| ==> TeardownRank(s[i]) < TeardownRank(s[j])
  }

  /** Appending at most one call of rank k to calls ranked below k keeps the order. */
  lemma RankedAppend(s: seq<Call>, extra: seq<Call>, k: nat)
    requires StrictlyRanked(s) && forall c | c in s :: TeardownRank(c) < k
    requires |extra| <= 1 && forall c | c in extra :: TeardownRank(c) == k
    ensures StrictlyRanked(s + extra)
    ensures forall c | c in s + extra :: TeardownRank(c) < k + 1
  {
    forall i, j | 0 <= i < j < |s + extra|
      ensures TeardownRank((s + extra)[i]) < TeardownRank((s + extra)[j])
    {
      if j >= |s| {
        assert (s + extra)[i] in s && (s + extra)[j] in extra;
      }
    }
  }

  /** cleanup makes no frame call. */
  lemma CleanupCallsQuiet(running: bool, swapchain: Handle, space: Handle, session: Handle, instance: Handle)
    ensures NoFrameCalls(CleanupCalls(running, swapchain, space, session, instance))
  {
  }

  /** cleanup ends the session iff it runs and destroys a handle iff it is not null. */
  lemma CleanupMembers(running: bool, swapchain: Handle, space: Handle, session: Handle, instance: Handle)
    ensures var calls := CleanupCalls(running, swapchain, space, session, instance);
      && (EndSession in calls <==> running)
      && (DestroySwapchain in calls <==> swapchain != NULL_HANDLE)
      && (DestroySpace in calls <==> space != NULL_HANDLE)
      && (DestroySession in calls <==> session != NULL_HANDLE)
      && (DestroyInstance in calls <==> instance != NULL_HANDLE)
  {
  }

  /**
   * cleanup makes its calls strictly in the order end session, swapchain,
   * space, session, instance, so none of them twice.
   */
  lemma CleanupOrder(running: bool, swapchain: Handle, space: Handle, session: Handle, instance: Handle)
    ensures StrictlyRanked(CleanupCalls(running, swapchain, space, session, instance))
  {
    var a := When(running, EndSession);
    var b := When(swapchain != NULL_HANDLE, DestroySwapchain);
    var c := When(space != NULL_HANDLE, DestroySpace);
    var d := When(session != NULL_HANDLE, DestroySession);
    var e := When(instance != NULL_HANDLE, DestroyInstance);
    RankedAppend([], a, 0);
    assert [] + a == a;
    RankedAppend(a, b, 1);
    RankedAppend(a + b, c, 2);
    RankedAppend(a + b + c, d, 3);
    RankedAppend(a + b + c + d, e, 4);
  }

  // ---------------------------------------------------------------------
  // The application

  class StereoApp {
    var instance: Handle
    var systemId: Handle
    var session: Handle
    var appSpace: Handle
    var swapchain: Handle
    /** swapchainImages.size() */
    var imageCount: nat
    var sessionRunning: bool
    var sessionState: SessionState
    /** The recommended image size of each view. */
    var viewConfigViews: seq<Extent>
    var views: seq<View>
    var projectionViews: seq<ProjectionView>
    /** Every runtime and GL call made so far, in order. */
    ghost var trace: seq<Call>

    /** The three per-view vectors have one entry per view. */
    ghost predicate Shaped()
      reads this
    {
      |views| == |viewConfigViews| && |projectionViews| == |viewConfigViews|
    }

    /** The object invariant: per-view vectors in step, and every begun frame ended before the next begins. */
    ghost predicate Valid()
      reads this
    {
      Shaped() && Alternating(FrameMarks(trace))
    }

    function Status(): SessionStatus
      reads this
    {
      SessionStatus(sessionState, sessionRunning)
    }

    /** The globals at program start. */
    constructor ()
      ensures Valid()
      ensures instance == NULL_HANDLE && systemId == NULL_HANDLE && session == NULL_HANDLE
      ensures appSpace == NULL_HANDLE && swapchain == NULL_HANDLE && imageCount == 0
      ensures Status() == SessionStatus(Unknown, false)
      ensures viewConfigViews == [] && views == [] && projectionViews == [] && trace == []
    {
      instance, systemId, session, appSpace, swapchain := NULL_HANDLE, NULL_HANDLE, NULL_HANDLE, NULL_HANDLE, NULL_HANDLE;
      imageCount := 0;
      sessionRunning, sessionState := false, Unknown;
      viewConfigViews, views, projectionViews := [], [], [];
      trace := [];
    }

    /**
     * initOpenXR: create the instance, get the system, size the per-view
     * vectors from the view configuration, create the session, the
     * reference space and the swapchain (sized like view 0), query its
     * images and make the framebuffer and depth buffer. The first failing
     * checked step ends it with false; nothing after it is attempted.
     */
    method InitOpenXR(r: InitReplies) returns (ok: bool)
      requires Valid()
      requires Reached(r, 4) ==> r.viewConfigs != []
      modifies this`instance, this`systemId, this`session, this`appSpace, this`swapchain, this`imageCount,
               this`viewConfigViews, this`views, this`projectionViews, this`trace
      ensures Valid()
      ensures ok <==> Reached(r, INIT_STEPS)
      ensures trace == old(trace) + InitCalls(r)
      ensures instance == if Reached(r, 1) then r.instance.value else old(instance)
      ensures systemId == if Reached(r, 2) then r.system.value else old(systemId)
      ensures session == if Reached(r, 3) then r.session.value else old(session)
      ensures appSpace == if Reached(r, 4) then r.space.value else old(appSpace)
      ensures swapchain == if Reached(r, 5) then r.swapchain.value else old(swapchain)
      ensures imageCount == if Reached(r, 5) then r.imageCount else old(imageCount)
      ensures Reached(r, 2) ==>
        && viewConfigViews == r.viewConfigs
        && views == Resize(old(views), |r.viewConfigs|, NO_VIEW)
        && projectionViews == Resize(old(projectionViews), |r.viewConfigs|, NO_PROJECTION_VIEW)
      ensures !Reached(r, 2) ==> viewConfigViews == old(viewConfigViews) && views == old(views) && projectionViews == old(projectionViews)
    {
      InitCallsShape(r);
      ok := false;
      if !r.instance.Ok? {
        InitCallsQuiet(r);
        PairingKeptByQuietCalls(trace, InitCalls(r));
        trace := trace + [CreateInstance];
        return;
      }
      instance := r.instance.value;
      if !r.system.Ok? {
        InitCallsQuiet(r);
        PairingKeptByQuietCalls(trace, InitCalls(r));
        trace := trace + [CreateInstance, GetSystem];
        return;
      }
      systemId := r.system.value;
      var viewCount := |r.viewConfigs|;
      views := Resize(views, viewCount, NO_VIEW);
      projectionViews := Resize(projectionViews, viewCount, NO_PROJECTION_VIEW);
      // The second query fills every entry of the resized vector.
      viewConfigViews := r.viewConfigs;
      PairingKeptByQuietCalls(trace, INIT_FRONT);
      trace := trace + INIT_FRONT;
      ok := CreateSessionObjects(r);
      AppendTwo(old(trace), INIT_FRONT, SessionObjectCalls(r));
    }

    /**
     * The part of initOpenXR after the view configuration: create the
     * session, the reference space and the swapchain, query its images and
     * make the framebuffer and the depth buffer, stopping at the first
     * failing checked step.
     */
    method CreateSessionObjects(r: InitReplies) returns (ok: bool)
      requires Valid() && Reached(r, 2) && viewConfigViews == r.viewConfigs
      requires Reached(r, 4) ==> r.viewConfigs != []
      modifies this`session, this`appSpace, this`swapchain, this`imageCount, this`trace
      ensures Valid()
      ensures ok <==> Reached(r, INIT_STEPS)
      ensures trace == old(trace) + SessionObjectCalls(r)
      ensures session == if Reached(r, 3) then r.session.value else old(session)
      ensures appSpace == if Reached(r, 4) then r.space.value else old(appSpace)
      ensures swapchain == if Reached(r, 5) then r.swapchain.value else old(swapchain)
      ensures imageCount == if Reached(r, 5) then r.imageCount else old(imageCount)
    {
      SessionObjectCallsShape(r);
      ok := false;
      if !r.session.Ok? {
        assert trace + [] == trace;
        return;
      }
      session := r.session.value;
      if !r.space.Ok? {
        InitCallsQuiet(r);
        PairingKeptByQuietCalls(trace, SessionObjectCalls(r));
        trace := trace + [CreateReferenceSpace];
        return;
      }
      appSpace := r.space.value;
      var extent := viewConfigViews[0];
      InitCallsQuiet(r);
      PairingKeptByQuietCalls(trace, SessionObjectCalls(r));
      if !r.swapchain.Ok? {
        trace := trace + [CreateReferenceSpace, CreateSwapchain(0, extent)];
        return;
      }
      swapchain := r.swapchain.value;
      imageCount := r.imageCount;
      trace := trace + [CreateReferenceSpace, CreateSwapchain(0, extent),
        EnumerateSwapchainImages(0), EnumerateSwapchainImages(0), GenFramebuffers(0, 1), CreateDepthBuffer(extent)];
      ok := true;
    }

    /**
     * pollEvents: nothing at all without an instance. Otherwise it drains
     * the event queue: a state change sets sessionState; READY begins the
     * session and marks it running when that succeeds; STOPPING ends it and
     * marks it stopped; a pending instance loss marks it stopped. `queue`
     * is what xrPollEvent delivers before it reports no more events.
     */
    method PollEvents(queue: seq<Polled>)
      requires Valid()
      modifies this`sessionState, this`sessionRunning, this`trace
      ensures Valid()
      ensures old(instance) == NULL_HANDLE ==> unchanged(this)
      ensures old(instance) != NULL_HANDLE ==>
        && Status() == AfterEvents(old(Status()), queue)
        && trace == old(trace) + (HandledCalls(queue) + [PollEvent])
    {
      if instance == NULL_HANDLE {
        return;
      }
      ghost var s0 := Status();
      ghost var calls: seq<Call> := [];
      var k := 0;
      while k < |queue|
        invariant 0 <= k <= |queue|
        invariant Status() == AfterEvents(s0, queue[..k])
        invariant calls == HandledCalls(queue[..k])
        invariant trace == old(trace)
      {
        var p := queue[k];
        assert queue[..k + 1][..k] == queue[..k];
        calls := calls + EventCalls(p);
        match p.event {
          case StateChanged(state) =>
            sessionState := state;
            if state == Ready {
              if p.beginOk {
                sessionRunning := true;
              }
            } else if state == Stopping {
              sessionRunning := false;
            }
          case InstanceLossPending =>
            sessionRunning := false;
          case OtherEvent =>
        }
        k := k + 1;
      }
      assert queue[..k] == queue;
      HandledCallsQuiet(queue);
      PairingKeptByQuietCalls(trace, HandledCalls(queue) + [PollEvent]);
      trace := trace + (calls + [PollEvent]);
    }

    /**
     * renderFrame: nothing unless the session runs. Otherwise it waits for
     * and begins a frame; when the frame should render it acquires and
     * waits for the swapchain image, locates the views, renders each
     * located eye into its own array layer and records that eye's
     * projection view, and releases the image; it ends the frame with the
     * projection layer, or with no layer when it should not render.
     * `located` is what xrLocateViews writes into `views`.
     */
    method RenderFrame(shouldRender: bool, located: seq<View>)
      requires Valid() && |located| <= |views|
      modifies this`views, this`projectionViews, this`trace
      ensures Valid()
      ensures !old(sessionRunning) ==> unchanged(this)
      ensures old(sessionRunning) ==>
        && trace == old(trace) + ([WaitFrame, BeginFrame] + RenderCalls(shouldRender, |located|, viewConfigViews)
                    + [EndFrame(StereoLayers(shouldRender, appSpace, swapchain, located, viewConfigViews))])
        && views == (if shouldRender then located + old(views)[|located|..] else old(views))
        && |projectionViews| == |old(projectionViews)|
        && (forall eye :: 0 <= eye < |projectionViews| ==>
              projectionViews[eye] ==
                if shouldRender && eye < |located| then EyeView(eye, located[eye], viewConfigViews[eye], swapchain)
                else old(projectionViews)[eye])
    {
      if !sessionRunning {
        return;
      }
      ghost var body: seq<Call> := [];
      var layers: seq<Layer> := [];
      if shouldRender {
        views := located + views[|located|..];
        ghost var passes := RenderEyes(located);
        body := [AcquireImage(0), WaitImage(0), LocateViews] + passes + [ReleaseImage(0)];
        layers := [Projection(appSpace, projectionViews[..|located|])];
        assert projectionViews[..|located|] == ProjectionViews(swapchain, located, viewConfigViews);
      }
      assert body == RenderCalls(shouldRender, |located|, viewConfigViews);
      RenderCallsQuiet(shouldRender, |located|, viewConfigViews);
      PairingKeptByFrame(trace, body, layers);
      trace := trace + ([WaitFrame, BeginFrame] + body + [EndFrame(layers)]);
    }

    /**
     * The eye loop of renderFrame: each located eye is rendered at its
     * recommended size and its projection view recorded; the views of eyes
     * that were not located keep their previous projection views.
     */
    method RenderEyes(located: seq<View>) returns (ghost passes: seq<Call>)
      requires Shaped() && |located| <= |views|
      requires forall e :: 0 <= e < |located| ==> views[e] == located[e]
      modifies this`projectionViews
      ensures Shaped()
      ensures passes == EyePasses(|located|, viewConfigViews)
      ensures forall e :: 0 <= e < |projectionViews| ==>
        projectionViews[e] == if e < |located| then EyeView(e, located[e], viewConfigViews[e], swapchain) else old(projectionViews)[e]
    {
      passes := [];
      var eye := 0;
      while eye < |located|
        invariant 0 <= eye <= |located| && Shaped()
        invariant passes == EyePasses(eye, viewConfigViews)
        invariant forall e :: 0 <= e < |projectionViews| ==>
          projectionViews[e] == if e < eye then EyeView(e, located[e], viewConfigViews[e], swapchain) else old(projectionViews)[e]
      {
        var vp := viewConfigViews[eye];
        passes := passes + [RenderEye(eye, vp)];
        projectionViews := projectionViews[eye := ProjectionView(views[eye].pose, views[eye].fov, swapchain, vp, eye)];
        eye := eye + 1;
      }
    }

    /**
     * cleanup: end the session if it runs, then destroy the swapchain, the
     * space, the session and the instance, skipping null handles. The
     * handles keep their values.
     */
    method Cleanup()
      requires Valid()
      modifies this`trace
      ensures Valid()
      ensures trace == old(trace) + CleanupCalls(sessionRunning, swapchain, appSpace, session, instance)
    {
      ghost var calls: seq<Call> := [];
      if sessionRunning {
        calls := [EndSession];
      }
      assert calls == When(sessionRunning, EndSession);
      ghost var done := calls;
      if swapchain != NULL_HANDLE {
        calls := calls + [DestroySwapchain];
      }
      assert calls == done + When(swapchain != NULL_HANDLE, DestroySwapchain);
      done := calls;
      if appSpace != NULL_HANDLE {
        calls := calls + [DestroySpace];
      }
      assert calls == done + When(appSpace != NULL_HANDLE, DestroySpace);
      done := calls;
      if session != NULL_HANDLE {
        calls := calls + [DestroySession];
      }
      assert calls == done + When(session != NULL_HANDLE, DestroySession);
      done := calls;
      if instance != NULL_HANDLE {
        calls := calls + [DestroyInstance];
      }
      assert calls == done + When(instance != NULL_HANDLE, DestroyInstance);
      CleanupCallsQuiet(sessionRunning, swapchain, appSpace, session, instance);
      PairingKeptByQuietCalls(trace, calls);
      trace := trace + calls;
    }
  }
}
