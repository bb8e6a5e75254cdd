/**
 * The overlay application (custom_monado_runtime.cpp): the OpenXrApp state
 * record, its one-time swapchain pool, its session event handler, its
 * frame loop with the staged-reveal animation, and the resume, pause and
 * tap handlers of its activity.
 */
module OverlayRuntime {
  import opened Xr
  import opened OverlayFrame

  /** A GL framebuffer object, known by what it has as colour attachment: image `image` of swapchain `slot`. */
  datatype Framebuffer = Framebuffer(slot: nat, image: nat)

  /** What xrCreateSwapchain and xrEnumerateSwapchainImages hand back for one slot. */
  datatype SwapchainReply = SwapchainReply(handle: Handle, imageCount: nat)

  /** The fields of OpenXrApp that session events change; `finishing` records ANativeActivity_finish. */
  datatype SessionStatus = SessionStatus(state: SessionState, running: bool, created: bool, finishing: bool)

  /** The activity commands the application reacts to. */
  datatype AppCmd = Resume | Pause | OtherCmd

  /** An input event: a motion event with its action, or any other kind. */
  datatype InputEvent = Motion(actionDown: bool) | OtherInput

  // ---------------------------------------------------------------------
  // Session events

  /** A READY event whose xrBeginSession succeeds. */
  predicate StartsSession(p: Polled) {
    p.event == StateChanged(Ready) && p.beginOk
  }

  /** An EXITING event. */
  predicate RequestsExit(p: Polled) {
    p.event == StateChanged(Exiting)
  }

  /** How an event decides sessionRunning, when it does: a begun session runs, a stopping one does not. */
  function RunningEffect(p: Polled): Option<bool> {
    if StartsSession(p) then Some(true)
    else if p.event == StateChanged(Stopping) then Some(false)
    else None
  }

  /** The handling of one event in pollEvents. */
  function HandleEvent(s: SessionStatus, p: Polled): (r: SessionStatus)
    ensures (s.running ==> s.created) ==> (r.running ==> r.created)
    ensures s.created ==> r.created
    ensures s.finishing ==> r.finishing
  {
    match p.event
    case StateChanged(state) =>
      var s' := s.(state := state);
      if state == Ready then (if p.beginOk then s'.(running := true, created := true) else s')
      else if state == Stopping then s'.(running := false)
      else if state == Exiting then s'.(finishing := true)
      else s'
    case _ => s
  }

  /** The status after handling the events of `q` in order. */
  function AfterEvents(s: SessionStatus, q: seq<Polled>): SessionStatus {
    if q == [] then s else HandleEvent(AfterEvents(s, q[..|q| - 1]), q[|q| - 1])
  }

  /** sessionState holds the state of the last state-change event, if there was one. */
  lemma {:induction false} AfterEventsState(s: SessionStatus, q: seq<Polled>)
    ensures AfterEvents(s, q).state == LastEffect(q, StateEffect).GetOr(s.state)
  {
    if q != [] {
      var init, p := q[..|q| - 1], q[|q| - 1];
      AfterEventsState(s, init);
      assert q == init + [p];
      LastEffectSnoc(init, p, StateEffect);
    }
  }

  /**
   * sessionRunning is true after a READY whose begin succeeded and false
   * after a STOPPING, whichever came last; other events leave it alone.
   */
  lemma {:induction false} AfterEventsRunning(s: SessionStatus, q: seq<Polled>)
    ensures AfterEvents(s, q).running == LastEffect(q, RunningEffect).GetOr(s.running)
  {
    if q != [] {
      var init, p := q[..|q| - 1], q[|q| - 1];
      AfterEventsRunning(s, init);
      assert q == init + [p];
      LastEffectSnoc(init, p, RunningEffect);
    }
  }

  /** The swapchains exist afterwards iff they did before or some session began. */
  lemma {:induction false} AfterEventsCreated(s: SessionStatus, q: seq<Polled>)
    ensures AfterEvents(s, q).created <==> s.created || exists i :: 0 <= i < |q| && StartsSession(q[i])
  {
    if q != [] {
      var init, p := q[..|q| - 1], q[|q| - 1];
      AfterEventsCreated(s, init);
      if exists i :: 0 <= i < |q| && StartsSession(q[i]) {
        var i :| 0 <= i < |q| && StartsSession(q[i]);
        if i < |init| {
          assert StartsSession(init[i]);
        }
      }
      if exists i :: 0 <= i < |init| && StartsSession(init[i]) {
        var i :| 0 <= i < |init| && StartsSession(init[i]);
        assert StartsSession(q[i]);
      }
    }
  }

  /** The activity is asked to finish iff it already was or some EXITING event came. */
  lemma {:induction false} AfterEventsFinishing(s: SessionStatus, q: seq<Polled>)
    ensures AfterEvents(s, q).finishing <==> s.finishing || exists i :: 0 <= i < |q| && RequestsExit(q[i])
  {
    if q != [] {
      var init, p := q[..|q| - 1], q[|q| - 1];
      AfterEventsFinishing(s, init);
      if exists i :: 0 <= i < |q| && RequestsExit(q[i]) {
        var i :| 0 <= i < |q| && RequestsExit(q[i]);
        if i < |init| {
          assert RequestsExit(init[i]);
        }
      }
      if exists i :: 0 <= i < |init| && RequestsExit(init[i]) {
        var i :| 0 <= i < |init| && RequestsExit(init[i]);
        assert RequestsExit(q[i]);
      }
    }
  }

  /** A running session always has its swapchains, whatever events come. */
  lemma {:induction false} AfterEventsRunningHasSwapchains(s: SessionStatus, q: seq<Polled>)
    requires s.running ==> s.created
    ensures AfterEvents(s, q).running ==> AfterEvents(s, q).created
  {
    if q != [] {
      AfterEventsRunningHasSwapchains(s, q[..|q| - 1]);
    }
  }

  // ---------------------------------------------------------------------
  // The calls the handlers make

  /** glFramebufferTexture2D for images 0 .. n-1 of a slot, in image order. */
  function AttachCalls(slot: nat, n: nat): (r: seq<Call>)
    ensures |r| == n && forall j :: 0 <= j < n ==> r[j] == AttachImage(slot, j)
  {
    if n == 0 then [] else AttachCalls(slot, n - 1) + [AttachImage(slot, n - 1)]
  }

  /** The calls createSwapchains makes for one slot with `count` images. */
  function SlotCalls(slot: nat, count: nat): seq<Call>
    requires slot < LAYER_COUNT
  {
    [CreateSwapchain(slot, SLOT_EXTENTS[slot]), EnumerateSwapchainImages(slot),
     EnumerateSwapchainImages(slot), GenFramebuffers(slot, count)] + AttachCalls(slot, count)
  }

  /** The calls createSwapchains makes for slots 0 .. n-1, slot by slot. */
  function SwapchainCalls(replies: seq<SwapchainReply>, n: nat): seq<Call>
    requires n <= |replies| <= LAYER_COUNT
  {
    if n == 0 then [] else SwapchainCalls(replies, n - 1) + SlotCalls(n - 1, replies[n - 1].imageCount)
  }

  /**
   * A call that creating the swapchains may make: no frame call, a
   * swapchain only at its slot's fixed size, and a framebuffer only for an
   * image the runtime reported for that slot.
   */
  ghost predicate FitsReplies(c: Call, replies: seq<SwapchainReply>) {
    && !c.BeginFrame? && !c.EndFrame?
    && (c.CreateSwapchain? ==> c.slot < |replies| && c.slot < LAYER_COUNT && c.extent == SLOT_EXTENTS[c.slot])
    && (c.AttachImage? ==> c.slot < |replies| && c.image < replies[c.slot].imageCount)
  }

  /** One slot's calls fit the replies when the slot's reply reported `count` images. */
  lemma SlotCallsFit(slot: nat, count: nat, replies: seq<SwapchainReply>)
    requires slot < |replies| <= LAYER_COUNT && replies[slot].imageCount == count
    ensures forall c | c in SlotCalls(slot, count) :: FitsReplies(c, replies)
  {
    assert forall c | c in AttachCalls(slot, count) :: c.AttachImage? && c.slot == slot && c.image < count;
  }

  /** Swapchain sizes never vary, and every attached image exists. */
  lemma {:induction false} SwapchainCallsFit(replies: seq<SwapchainReply>, n: nat)
    requires n <= |replies| <= LAYER_COUNT
    ensures forall c | c in SwapchainCalls(replies, n) :: FitsReplies(c, replies)
    ensures NoFrameCalls(SwapchainCalls(replies, n))
  {
    if n > 0 {
      SwapchainCallsFit(replies, n - 1);
      SlotCallsFit(n - 1, replies[n - 1].imageCount, replies);
    }
  }

  /**
   * The calls of the READY case: xrBeginSession and, when it succeeds and
   * the swapchains do not exist yet, the whole pool's creation.
   */
  function ReadyCalls(created: bool, beginOk: bool, replies: seq<SwapchainReply>): seq<Call>
    requires |replies| == LAYER_COUNT
  {
    [BeginSession] + (if beginOk && !created then SwapchainCalls(replies, LAYER_COUNT) else [])
  }

  /** The calls made for one delivered event: the poll that delivered it, then the handler's. */
  function EventCalls(s: SessionStatus, p: Polled, replies: seq<SwapchainReply>): seq<Call>
    requires |replies| == LAYER_COUNT
  {
    [PollEvent] +
    match p.event
    case StateChanged(Ready) => ReadyCalls(s.created, p.beginOk, replies)
    case StateChanged(Stopping) => [EndSession]
    case StateChanged(Exiting) => [FinishActivity]
    case _ => []
  }

  /** One event's calls make no frame call and fit the replies. */
  lemma EventCallsFit(s: SessionStatus, p: Polled, replies: seq<SwapchainReply>)
    requires |replies| == LAYER_COUNT
    ensures forall c | c in EventCalls(s, p, replies) :: FitsReplies(c, replies)
    ensures NoFrameCalls(EventCalls(s, p, replies))
  {
    SwapchainCallsFit(replies, LAYER_COUNT);
  }

  /** The calls made while handling the events of `q` in order. */
  function HandledCalls(s: SessionStatus, q: seq<Polled>, replies: seq<SwapchainReply>): seq<Call>
    requires |replies| == LAYER_COUNT
  {
    if q == [] then []
    else
      var init := q[..|q| - 1];
      HandledCalls(s, init, replies) + EventCalls(AfterEvents(s, init), q[|q| - 1], replies)
  }

  /** Handling one more event appends its calls, made in the state the earlier events left. */
  lemma HandledCallsSnoc(s: SessionStatus, q: seq<Polled>, p: Polled, replies: seq<SwapchainReply>)
    requires |replies| == LAYER_COUNT
    ensures AfterEvents(s, q + [p]) == HandleEvent(AfterEvents(s, q), p)
    ensures HandledCalls(s, q + [p], replies) == HandledCalls(s, q, replies) + EventCalls(AfterEvents(s, q), p, replies)
  {
    assert (q + [p])[..|q|] == q;
  }

  /** Handling events never begins or ends a frame, and creates swapchains only as the replies allow. */
  lemma {:induction false} HandledCallsQuiet(s: SessionStatus, q: seq<Polled>, replies: seq<SwapchainReply>)
    requires |replies| == LAYER_COUNT
    ensures forall c | c in HandledCalls(s, q, replies) :: FitsReplies(c, replies)
    ensures NoFrameCalls(HandledCalls(s, q, replies))
  {
    if q != [] {
      var init := q[..|q| - 1];
      HandledCallsQuiet(s, init, replies);
      EventCallsFit(AfterEvents(s, init), q[|q| - 1], replies);
    }
  }

  /**
   * The swapchains are created at most once however many sessions begin:
   * once they exist, no later event creates another.
   */
  lemma {:induction false} NoSecondSwapchainPool(s: SessionStatus, q: seq<Polled>, replies: seq<SwapchainReply>)
    requires |replies| == LAYER_COUNT && s.created
    ensures forall c | c in HandledCalls(s, q, replies) :: !c.CreateSwapchain?
  {
    if q != [] {
      var init := q[..|q| - 1];
      NoSecondSwapchainPool(s, init, replies);
      AfterEventsCreated(s, init);
    }
  }

  /** The pass over slot k: xrAcquireSwapchainImage, xrWaitSwapchainImage, the clear, xrReleaseSwapchainImage. */
  function Pass(k: nat): seq<Call>
    requires k < LAYER_COUNT
  {
    [AcquireImage(k), WaitImage(k), RenderImage(k, SLOT_EXTENTS[k]), ReleaseImage(k)]
  }

  /** The passes over slots 0 .. n-1. */
  function SlotPasses(n: nat): seq<Call>
    requires n <= LAYER_COUNT
  {
    if n == 0 then [] else SlotPasses(n - 1) + Pass(n - 1)
  }

  /** The slot passes make no frame call and render each image at its slot's fixed size. */
  lemma {:induction false} SlotPassesQuiet(n: nat)
    requires n <= LAYER_COUNT
    ensures NoFrameCalls(SlotPasses(n))
    ensures forall c | c in SlotPasses(n) && c.RenderImage? :: c.slot < n && c.extent == SLOT_EXTENTS[c.slot]
  {
    if n > 0 {
      SlotPassesQuiet(n - 1);
    }
  }

  /**
   * Every slot gets exactly one pass, in ascending slot order: the pass
   * over slot k comes right after the passes over slots 0 .. k-1.
   */
  lemma {:induction false} SlotPassesInOrder(n: nat)
    requires n <= LAYER_COUNT
    ensures |SlotPasses(n)| == 4 * n
    ensures forall k :: 0 <= k < n ==> SlotPasses(k) + Pass(k) <= SlotPasses(n)
  {
    if n > 0 {
      SlotPassesInOrder(n - 1);
      var prev := SlotPasses(n - 1);
      forall k | 0 <= k < n - 1
        ensures SlotPasses(k) + Pass(k) <= SlotPasses(n)
      {
        var a := SlotPasses(k) + Pass(k);
        assert a <= prev;
        assert (prev + Pass(n - 1))[..|a|] == prev[..|a|];
      }
    }
  }

  // ---------------------------------------------------------------------
  // The application state

  /** AttachedTo(fbs, slot, count): one framebuffer per image of the slot, framebuffer j on image j. */
  ghost predicate AttachedTo(fbs: seq<Framebuffer>, slot: nat, count: nat) {
    |fbs| == count && forall j :: 0 <= j < count ==> fbs[j] == Framebuffer(slot, j)
  }

  class OpenXrApp {
    var resumed: bool
    var sessionRunning: bool
    var animationStage: int
    var stageTimer: real
    var instance: Handle
    var systemId: nat
    var session: Handle
    var sessionState: SessionState
    var appSpace: Handle
    const swapchains: array<Handle>
    const framebuffers: array<seq<Framebuffer>>
    var swapchainsCreated: bool
    /** ANativeActivity_finish has been called. */
    var finishRequested: bool
    /** Every runtime, GL and activity call made so far, in order. */
    ghost var trace: seq<Call>

    /** One array entry per slot, and the animation in range. */
    ghost predicate Shaped()
      reads this
    {
      && swapchains.Length == LAYER_COUNT
      && framebuffers.Length == LAYER_COUNT
      && ValidAnimation(Anim())
    }

    /**
     * The object invariant: a running session always has its swapchains,
     * and every frame begun so far was ended before the next one began.
     */
    ghost predicate Valid()
      reads this
    {
      Shaped() && (sessionRunning ==> swapchainsCreated) && Alternating(FrameMarks(trace))
    }

    function Anim(): Animation
      reads this
    {
      Animation(animationStage, stageTimer)
    }

    function Status(): SessionStatus
      reads this
    {
      SessionStatus(sessionState, sessionRunning, swapchainsCreated, finishRequested)
    }

    /** Every slot holds the swapchain the runtime returned and one framebuffer per reported image. */
    ghost predicate Allocated(replies: seq<SwapchainReply>)
      reads this, swapchains, framebuffers
    {
      AllocatedUpTo(replies, LAYER_COUNT)
    }

    /** Slots 0 .. n-1 hold their swapchain and framebuffers. */
    ghost predicate AllocatedUpTo(replies: seq<SwapchainReply>, n: nat)
      reads this, swapchains, framebuffers
    {
      && n <= |replies| == LAYER_COUNT
      && swapchains.Length == LAYER_COUNT
      && framebuffers.Length == LAYER_COUNT
      && forall i :: 0 <= i < n ==>
           swapchains[i] == replies[i].handle && AttachedTo(framebuffers[i], i, replies[i].imageCount)
    }

    /** `OpenXrApp oxr = {}`: every field at its default. */
    constructor ()
      ensures Valid() && fresh(swapchains) && fresh(framebuffers)
      ensures Status() == SessionStatus(Unknown, false, false, false)
      ensures !resumed && Anim() == Animation(0, 0.0)
      ensures instance == NULL_HANDLE && systemId == 0 && session == NULL_HANDLE && appSpace == NULL_HANDLE
      ensures forall i :: 0 <= i < LAYER_COUNT ==> swapchains[i] == NULL_HANDLE && framebuffers[i] == []
      ensures trace == []
    {
      resumed, sessionRunning := false, false;
      animationStage, stageTimer := 0, 0.0;
      instance, systemId, session, appSpace := NULL_HANDLE, 0, NULL_HANDLE, NULL_HANDLE;
      sessionState := Unknown;
      swapchains := new Handle[LAYER_COUNT](_ => NULL_HANDLE);
      framebuffers := new seq<Framebuffer>[LAYER_COUNT](_ => []);
      swapchainsCreated, finishRequested := false, false;
      trace := [];
    }

    /**
     * One turn of createSwapchains' loop: store the swapchain the runtime
     * returned for slot i, then make one framebuffer per swapchain image and
     * attach the image to it.
     */
    method CreateSlot(i: nat, reply: SwapchainReply)
      requires i < LAYER_COUNT && Shaped()
      modifies swapchains, framebuffers, this`trace
      ensures swapchains[i] == reply.handle && AttachedTo(framebuffers[i], i, reply.imageCount)
      ensures forall k :: 0 <= k < LAYER_COUNT && k != i ==>
        swapchains[k] == old(swapchains[k]) && framebuffers[k] == old(framebuffers[k])
      ensures trace == old(trace) + SlotCalls(i, reply.imageCount)
    {
      swapchains[i] := reply.handle;
      var count := reply.imageCount;
      trace := trace + [CreateSwapchain(i, SLOT_EXTENTS[i]), EnumerateSwapchainImages(i),
                        EnumerateSwapchainImages(i), GenFramebuffers(i, count)];
      var fbs: seq<Framebuffer> := [];
      var j := 0;
      while j < count
        invariant 0 <= j <= count
        invariant AttachedTo(fbs, i, j)
        invariant trace == old(trace) + SlotCalls(i, count)[..4 + j]
        modifies this`trace
      {
        fbs := fbs + [Framebuffer(i, j)];
        trace := trace + [AttachImage(i, j)];
        j := j + 1;
      }
      framebuffers[i] := fbs;
      assert SlotCalls(i, count)[..4 + count] == SlotCalls(i, count);
    }

    /**
     * createSwapchains: on the first call, one swapchain per slot at the
     * slot's fixed size and one framebuffer per swapchain image; every later
     * call returns at once. It reports success either way: the result of
     * xrCreateSwapchain is never checked.
     */
    method CreateSwapchains(replies: seq<SwapchainReply>) returns (ok: bool)
      requires Shaped() && |replies| == LAYER_COUNT
      modifies swapchains, framebuffers, this`swapchainsCreated, this`trace
      ensures ok && swapchainsCreated
      ensures old(swapchainsCreated) ==> unchanged(this, swapchains, framebuffers)
      ensures !old(swapchainsCreated) ==> Allocated(replies) && trace == old(trace) + SwapchainCalls(replies, LAYER_COUNT)
    {
      if swapchainsCreated {
        return true;
      }
      var i := 0;
      while i < LAYER_COUNT
        invariant 0 <= i <= LAYER_COUNT
        invariant trace == old(trace) + SwapchainCalls(replies, i)
        invariant AllocatedUpTo(replies, i)
      {
        CreateSlot(i, replies[i]);
        assert SwapchainCalls(replies, i + 1) == SwapchainCalls(replies, i) + SlotCalls(i, replies[i].imageCount);
        AppendTwo(old(trace), SwapchainCalls(replies, i), SlotCalls(i, replies[i].imageCount));
        i := i + 1;
      }
      swapchainsCreated := true;
      return true;
    }

    /** The arrays' contents: the swapchain handles and the framebuffers of each slot. */
    ghost function Pool(): (seq<Handle>, seq<seq<Framebuffer>>)
      reads swapchains, framebuffers
    {
      (swapchains[..], framebuffers[..])
    }

    /**
     * The READY case of pollEvents: begin the session and, when that
     * succeeds, mark it running and create the swapchains.
     */
    method BeginReady(beginOk: bool, replies: seq<SwapchainReply>)
      requires Shaped() && |replies| == LAYER_COUNT
      modifies swapchains, framebuffers, this`sessionRunning, this`swapchainsCreated, this`trace
      ensures Shaped()
      ensures sessionRunning == (old(sessionRunning) || beginOk)
      ensures swapchainsCreated == (old(swapchainsCreated) || beginOk)
      ensures trace == old(trace) + ReadyCalls(old(swapchainsCreated), beginOk, replies)
      ensures !old(swapchainsCreated) && swapchainsCreated ==> Allocated(replies)
      ensures old(swapchainsCreated) || !swapchainsCreated ==> Pool() == old(Pool())
    {
      trace := trace + [BeginSession];
      if beginOk {
        sessionRunning := true;
        var _ := CreateSwapchains(replies);
        if !old(swapchainsCreated) {
          AppendTwo(old(trace), [BeginSession], SwapchainCalls(replies, LAYER_COUNT));
        }
      } else {
        assert trace == old(trace) + ([BeginSession] + []);
      }
    }

    /**
     * The body of pollEvents' loop for one delivered event: the switch on
     * the event type and, for a state change, on the new state.
     */
    method HandlePolled(p: Polled, replies: seq<SwapchainReply>)
      requires Shaped() && |replies| == LAYER_COUNT
      requires sessionRunning ==> swapchainsCreated
      modifies swapchains, framebuffers, this`sessionState, this`sessionRunning,
               this`swapchainsCreated, this`finishRequested, this`trace
      ensures Shaped() && (sessionRunning ==> swapchainsCreated)
      ensures Status() == HandleEvent(old(Status()), p)
      ensures trace == old(trace) + EventCalls(old(Status()), p, replies)
      ensures !old(swapchainsCreated) && swapchainsCreated ==> Allocated(replies)
      ensures old(swapchainsCreated) || !swapchainsCreated ==> Pool() == old(Pool())
    {
      trace := trace + [PollEvent];
      match p.event {
        case StateChanged(state) =>
          sessionState := state;
          if state == Ready {
            BeginReady(p.beginOk, replies);
            AppendTwo(old(trace), [PollEvent], ReadyCalls(old(swapchainsCreated), p.beginOk, replies));
          } else if state == Stopping {
            sessionRunning := false;
            trace := trace + [EndSession];
            AppendTwo(old(trace), [PollEvent], [EndSession]);
          } else if state == Exiting {
            finishRequested := true;
            trace := trace + [FinishActivity];
            AppendTwo(old(trace), [PollEvent], [FinishActivity]);
          } else {
            assert trace == old(trace) + ([PollEvent] + []);
          }
        case _ =>
          assert trace == old(trace) + ([PollEvent] + []);
      }
    }

    /**
     * pollEvents: drains the event queue. Each state-change event sets
     * sessionState; READY begins the session and, when that succeeds, marks
     * it running and creates the swapchains; STOPPING marks it stopped and
     * ends it; EXITING asks the activity to finish. `queue` is what
     * xrPollEvent delivers before it reports no more events; `replies` is
     * what the runtime reports if the swapchains get created.
     */
    method PollEvents(queue: seq<Polled>, replies: seq<SwapchainReply>)
      requires Valid() && |replies| == LAYER_COUNT
      modifies swapchains, framebuffers, this`sessionState, this`sessionRunning,
               this`swapchainsCreated, this`finishRequested, this`trace
      ensures Valid()
      ensures Status() == AfterEvents(old(Status()), queue)
      ensures trace == old(trace) + HandledCalls(old(Status()), queue, replies) + [PollEvent]
      ensures !old(swapchainsCreated) && swapchainsCreated ==> Allocated(replies)
      ensures old(swapchainsCreated) || !swapchainsCreated ==> Pool() == old(Pool())
    {
      ghost var s0 := Status();
      var k := 0;
      while k < |queue|
        invariant 0 <= k <= |queue|
        invariant Shaped() && (sessionRunning ==> swapchainsCreated)
        invariant Status() == AfterEvents(s0, queue[..k])
        invariant trace == old(trace) + HandledCalls(s0, queue[..k], replies)
        invariant !s0.created && swapchainsCreated ==> Allocated(replies)
        invariant s0.created ==> swapchainsCreated
        invariant s0.created || !swapchainsCreated ==> Pool() == old(Pool())
      {
        ghost var done := queue[..k];
        HandlePolled(queue[k], replies);
        assert queue[..k + 1] == done + [queue[k]];
        HandledCallsSnoc(s0, done, queue[k], replies);
        AppendTwo(old(trace), HandledCalls(s0, done, replies), EventCalls(AfterEvents(s0, done), queue[k], replies));
        k := k + 1;
      }
      assert queue[..k] == queue;
      ghost var handled := HandledCalls(s0, queue, replies);
      HandledCallsQuiet(s0, queue, replies);
      PairingKeptByQuietCalls(old(trace), handled);
      PairingKeptByQuietCalls(trace, [PollEvent]);
      trace := trace + [PollEvent];
    }

    /**
     * The layers renderFrame submits when the frame should render: the
     * background quad, then each revealed overlay, scaled by the ease-in of
     * the overlay currently being revealed.
     */
    method BuildLayers() returns (layers: seq<Layer>)
      requires Shaped()
      ensures layers == QuadLayers(Anim(), appSpace, swapchains[..])
    {
      layers := [Quad(appSpace, swapchains[0], SLOT_EXTENTS[0], Vec3(0.0, 0.0, -2.0), 2.0, 2.0)];
      if animationStage >= 1 {
        var scale := if animationStage == 1 then (if 1.0 < stageTimer / 0.5 then 1.0 else stageTimer / 0.5) else 1.0;
        layers := layers + [Quad(appSpace, swapchains[1], SLOT_EXTENTS[1], Vec3(-0.4, 0.5, -1.5), 0.8 * scale, 0.4 * scale)];
      }
      if animationStage >= 2 {
        var scale := if animationStage == 2 then (if 1.0 < stageTimer / 0.5 then 1.0 else stageTimer / 0.5) else 1.0;
        layers := layers + [Quad(appSpace, swapchains[2], SLOT_EXTENTS[2], Vec3(-0.2, -0.2, -1.0), 0.4 * scale, 0.4 * scale)];
      }
      if animationStage >= 3 {
        var scale := if animationStage == 3 then (if 1.0 < stageTimer / 0.5 then 1.0 else stageTimer / 0.5) else 1.0;
        layers := layers + [Quad(appSpace, swapchains[3], SLOT_EXTENTS[3], Vec3(0.4, 0.3, -1.2), 0.5 * scale, 0.5 * scale)];
      }
    }

    /** The animation step at the top of renderFrame: one frame's worth of timer, and the next stage once it is due. */
    method AdvanceAnimation()
      requires Shaped()
      modifies this`animationStage, this`stageTimer
      ensures Shaped() && Anim() == NextAnimation(old(Anim()))
    {
      stageTimer := stageTimer + FRAME_STEP;
      if stageTimer > STAGE_DWELL && animationStage < LAST_STAGE {
        animationStage := animationStage + 1;
        stageTimer := 0.0;
      }
    }

    /**
     * renderFrame: does nothing unless the session runs, the swapchains
     * exist and the activity is resumed. Otherwise it advances the
     * animation by one step, waits for and begins a frame, renders every
     * slot's swapchain image when the runtime says the frame should render,
     * and ends the frame with the background and the revealed overlays (or
     * with no layer at all when it should not render).
     */
    method RenderFrame(shouldRender: bool)
      requires Valid()
      modifies this`animationStage, this`stageTimer, this`trace
      ensures Valid()
      ensures !old(sessionRunning && swapchainsCreated && resumed) ==> unchanged(this)
      ensures old(sessionRunning && swapchainsCreated && resumed) ==>
        && Anim() == NextAnimation(old(Anim()))
        && trace == old(trace) + ([WaitFrame, BeginFrame] + (if shouldRender then SlotPasses(LAYER_COUNT) else [])
                    + [EndFrame(SubmittedLayers(shouldRender, Anim(), appSpace, swapchains[..]))])
    {
      if !sessionRunning || !swapchainsCreated || !resumed {
        return;
      }
      AdvanceAnimation();

      // The frame's calls, in order; they join the trace when the frame ends.
      ghost var calls := [WaitFrame, BeginFrame];
      var layers: seq<Layer> := [];
      if shouldRender {
        var i := 0;
        while i < LAYER_COUNT
          invariant 0 <= i <= LAYER_COUNT
          invariant calls == [WaitFrame, BeginFrame] + SlotPasses(i)
        {
          calls := calls + Pass(i);
          i := i + 1;
        }
        layers := BuildLayers();
      }
      ghost var body := if shouldRender then SlotPasses(LAYER_COUNT) else [];
      calls := calls + [EndFrame(layers)];
      assert calls == [WaitFrame, BeginFrame] + body + [EndFrame(layers)];
      SlotPassesQuiet(LAYER_COUNT);
      PairingKeptByFrame(trace, body, layers);
      trace := trace + calls;
    }

    /** The activity command handler: RESUME and PAUSE set and clear `resumed`. */
    method OnAppCmd(cmd: AppCmd)
      modifies this`resumed
      ensures resumed == match cmd case Resume => true case Pause => false case OtherCmd => old(resumed)
    {
      if cmd == Resume {
        resumed := true;
      }
      if cmd == Pause {
        resumed := false;
      }
    }

    /**
     * The input handler: a motion event with ACTION_DOWN (a tap) restarts
     * the reveal animation; every motion event is reported as handled.
     */
    method OnInputEvent(event: InputEvent) returns (handled: bool)
      requires Valid()
      modifies this`animationStage, this`stageTimer
      ensures Valid()
      ensures handled <==> event.Motion?
      ensures Anim() == if event == Motion(true) then Animation(0, 0.0) else old(Anim())
    {
      if event.Motion? {
        if event.actionDown {
          animationStage := 0;
          stageTimer := 0.0;
        }
        return true;
      }
      return false;
    }
  }
}
