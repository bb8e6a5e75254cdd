/**
 * The pure part of the overlay application's frame: the staged-reveal
 * animation clock and the quad layers one frame submits.
 *
 * The four layer slots are fixed: slot 0 is the background, slots 1, 2 and
 * 3 are the blue, magenta and green overlays. Their swapchain sizes, poses
 * and base sizes are constants of the application and never change.
 *
 * The source keeps the stage timer as a 32-bit float advanced by 0.0166 per
 * rendered frame; the model keeps it as a `real`, so the thresholds 1.2 and
 * 0.5 are compared exactly and float rounding is not modelled.
 */
module OverlayFrame {
  import opened Xr

  const LAYER_COUNT: nat := 4

  /** swapchainWidths / swapchainHeights: the fixed size of each slot's swapchain. */
  const SLOT_EXTENTS: seq<Extent> :=
    [Extent(1024, 1024), Extent(512, 256), Extent(512, 256), Extent(512, 256)]

  /** Where each slot's quad is placed, in the application's reference space. */
  const SLOT_POSITIONS: seq<Vec3> :=
    [Vec3(0.0, 0.0, -2.0), Vec3(-0.4, 0.5, -1.5), Vec3(-0.2, -0.2, -1.0), Vec3(0.4, 0.3, -1.2)]

  /** Each slot's quad size (width, height) at full scale. */
  const SLOT_SIZES: seq<(real, real)> := [(2.0, 2.0), (0.8, 0.4), (0.4, 0.4), (0.5, 0.5)]

  /** How much the stage timer advances per rendered frame (about 60 frames a second). */
  const FRAME_STEP: real := 0.0166

  /** The stage advances once the timer exceeds this. */
  const STAGE_DWELL: real := 1.2

  /** 0 = background only, 1 = blue, 2 = magenta, 3 = green, 4 = done. */
  const LAST_STAGE: int := 4

  /** The frames a stage lasts: the timer first exceeds 1.2 after 73 steps of 0.0166. */
  const DWELL_FRAMES: nat := 73

  /** animation_stage and stage_timer. */
  datatype Animation = Animation(stage: int, timer: real)

  ghost predicate ValidAnimation(a: Animation) {
    0 <= a.stage <= LAST_STAGE && a.timer >= 0.0
  }

  /** The animation logic at the top of renderFrame, run once per rendered frame. */
  function NextAnimation(a: Animation): (r: Animation)
    ensures a.stage <= r.stage <= a.stage + 1
    ensures r.stage == a.stage + 1 <==> a.timer + FRAME_STEP > STAGE_DWELL && a.stage < LAST_STAGE
    ensures r.stage == a.stage ==> r.timer == a.timer + FRAME_STEP
    ensures r.stage != a.stage ==> r.timer == 0.0
    ensures ValidAnimation(a) ==> ValidAnimation(r)
  {
    var timer := a.timer + FRAME_STEP;
    if timer > STAGE_DWELL && a.stage < LAST_STAGE then Animation(a.stage + 1, 0.0)
    else Animation(a.stage, timer)
  }

  /** The animation after `n` rendered frames. */
  function Frames(a: Animation, n: nat): Animation {
    if n == 0 then a else NextAnimation(Frames(a, n - 1))
  }

  /** Over any number of frames the stage stays in [0, 4] and never goes down. */
  lemma {:induction false} FramesKeepStageInRange(a: Animation, n: nat)
    requires ValidAnimation(a)
    ensures ValidAnimation(Frames(a, n))
    ensures a.stage <= Frames(a, n).stage
  {
    if n > 0 {
      FramesKeepStageInRange(a, n - 1);
    }
  }

  /** Running m frames and then n more is running m + n frames. */
  lemma {:induction false} FramesAdd(a: Animation, m: nat, n: nat)
    ensures Frames(Frames(a, m), n) == Frames(a, m + n)
  {
    if n > 0 {
      FramesAdd(a, m, n - 1);
    }
  }

  /** Within a stage the timer grows by one step per frame for the first 72 frames. */
  lemma {:induction false} TimerRamp(stage: int, k: nat)
    requires k < DWELL_FRAMES
    ensures Frames(Animation(stage, 0.0), k) == Animation(stage, k as real * FRAME_STEP)
  {
    if k > 0 {
      TimerRamp(stage, k - 1);
    }
  }

  /** A stage below 4, entered with the timer at 0, lasts exactly 73 frames. */
  lemma StageLastsDwellFrames(stage: int)
    requires 0 <= stage < LAST_STAGE
    ensures forall k :: 0 <= k < DWELL_FRAMES ==> Frames(Animation(stage, 0.0), k).stage == stage
    ensures Frames(Animation(stage, 0.0), DWELL_FRAMES) == Animation(stage + 1, 0.0)
  {
    forall k | 0 <= k < DWELL_FRAMES
      ensures Frames(Animation(stage, 0.0), k).stage == stage
    {
      TimerRamp(stage, k);
    }
    StageEnds(stage);
  }

  /** The 73rd frame of a stage below 4 moves on to the next stage with the timer at 0. */
  lemma StageEnds(stage: int)
    requires 0 <= stage < LAST_STAGE
    ensures Frames(Animation(stage, 0.0), DWELL_FRAMES) == Animation(stage + 1, 0.0)
  {
    TimerRamp(stage, DWELL_FRAMES - 1);
  }

  /** Whatever led to the start of a stage below 4, 73 more frames lead to the start of the next. */
  lemma StageStep(a: Animation, m: nat, stage: int)
    requires 0 <= stage < LAST_STAGE && Frames(a, m) == Animation(stage, 0.0)
    ensures Frames(a, m + DWELL_FRAMES) == Animation(stage + 1, 0.0)
  {
    StageEnds(stage);
    FramesAdd(a, m, DWELL_FRAMES);
  }

  /** From a reset (stage 0, timer 0), stage s is reached after n = s * 73 frames. */
  lemma {:induction false} StageAfterReset(s: nat, n: nat)
    requires s <= LAST_STAGE && n == s * 73
    ensures Frames(Animation(0, 0.0), n) == Animation(s, 0.0)
  {
    if s > 0 {
      StageAfterReset(s - 1, n - DWELL_FRAMES);
      StageStep(Animation(0, 0.0), n - DWELL_FRAMES, s - 1);
    }
  }

  /**
   * The scale of overlay slot `k`: min(1, timer / 0.5) while it is the
   * overlay being revealed (stage == k), full size otherwise. A newly
   * revealed overlay thus grows to full size over 0.5 of timer.
   */
  function EaseScale(stage: int, k: nat, timer: real): (s: real)
    ensures timer >= 0.0 ==> 0.0 <= s <= 1.0
    ensures stage != k ==> s == 1.0
    ensures stage == k && timer >= 0.5 ==> s == 1.0
    ensures stage == k && timer <= 0.5 ==> s * 0.5 == timer
  {
    if stage == k then (if timer / 0.5 < 1.0 then timer / 0.5 else 1.0) else 1.0
  }

  /** While an overlay is revealed its scale only grows as the timer does. */
  lemma EaseScaleMonotone(stage: int, k: nat, t1: real, t2: real)
    requires t1 <= t2
    ensures EaseScale(stage, k, t1) <= EaseScale(stage, k, t2)
  {
  }

  /** How many overlays a stage reveals: overlay slot k is revealed once stage >= k. */
  function Revealed(stage: int): (n: nat)
    ensures n <= LAYER_COUNT - 1
    ensures (1 <= n <==> stage >= 1) && (2 <= n <==> stage >= 2) && (3 <= n <==> stage >= 3)
  {
    if stage <= 0 then 0 else if stage >= 3 then 3 else stage
  }

  /** The quad descriptor the frame submits for slot k. */
  function SlotQuad(k: nat, a: Animation, space: Handle, swapchains: seq<Handle>): Layer
    requires k < LAYER_COUNT && |swapchains| == LAYER_COUNT
  {
    var scale := if k == 0 then 1.0 else EaseScale(a.stage, k, a.timer);
    Quad(space, swapchains[k], SLOT_EXTENTS[k], SLOT_POSITIONS[k],
         SLOT_SIZES[k].0 * scale, SLOT_SIZES[k].1 * scale)
  }

  /**
   * The quad layers of a frame that should render: the background first,
   * then every revealed overlay, in ascending slot order.
   */
  function QuadLayers(a: Animation, space: Handle, swapchains: seq<Handle>): (layers: seq<Layer>)
    requires |swapchains| == LAYER_COUNT
    ensures |layers| == 1 + Revealed(a.stage)
    ensures (1 < |layers| <==> a.stage >= 1) && (2 < |layers| <==> a.stage >= 2) && (3 < |layers| <==> a.stage >= 3)
    ensures forall i :: 0 <= i < |layers| ==> layers[i] == SlotQuad(i, a, space, swapchains)
    ensures forall i :: 0 <= i < |layers| ==>
      layers[i].Quad? && layers[i].space == space && layers[i].extent == SLOT_EXTENTS[i]
  {
    seq(1 + Revealed(a.stage), i requires 0 <= i < 1 + Revealed(a.stage) => SlotQuad(i, a, space, swapchains))
  }

  /** The layer list a frame hands to xrEndFrame: empty unless the runtime asks to render. */
  function SubmittedLayers(shouldRender: bool, a: Animation, space: Handle, swapchains: seq<Handle>): (layers: seq<Layer>)
    requires |swapchains| == LAYER_COUNT
    ensures !shouldRender ==> layers == []
    ensures shouldRender ==> |layers| == 1 + Revealed(a.stage) && layers[0] == SlotQuad(0, a, space, swapchains)
  {
    if shouldRender then QuadLayers(a, space, swapchains) else []
  }

  /** The first frame rendered after a reset shows the background alone. */
  lemma FrameAfterResetShowsBackgroundOnly(space: Handle, swapchains: seq<Handle>)
    requires |swapchains| == LAYER_COUNT
    ensures QuadLayers(NextAnimation(Animation(0, 0.0)), space, swapchains) == [SlotQuad(0, Animation(0, 0.0), space, swapchains)]
  {
  }

  /**
   * Three stages after a reset all four layers are submitted; on that very
   * frame the green overlay has scale 0 and only grows to full size over
   * the next 31 frames.
   */
  lemma AllLayersAfterThreeStages(space: Handle, swapchains: seq<Handle>)
    requires |swapchains| == LAYER_COUNT
    ensures var a := Frames(Animation(0, 0.0), 3 * DWELL_FRAMES);
      |QuadLayers(a, space, swapchains)| == LAYER_COUNT && EaseScale(a.stage, 3, a.timer) == 0.0
    ensures var a := Frames(Animation(0, 0.0), 3 * DWELL_FRAMES + 31);
      |QuadLayers(a, space, swapchains)| == LAYER_COUNT &&
      forall k :: 1 <= k < LAYER_COUNT ==> EaseScale(a.stage, k, a.timer) == 1.0
  {
    StageAfterReset(3, 3 * DWELL_FRAMES);
    TimerRamp(3, 31);
    FramesAdd(Animation(0, 0.0), 3 * DWELL_FRAMES, 31);
  }
}
