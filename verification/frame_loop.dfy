/**
 The main loop: while the session is running, drain one frame's batch of
 events through the state machine, then draw that frame's render plan.
 */
module FrameLoop {
  import opened Wrappers
  import opened AxisSource
  import opened Binding
  import opened BindingProperties
  import opened Renderer

  /** What one iteration of the loop consumes: the pending events and the
      controller as polled during drawing. */
  datatype FrameInput = FrameInput(events: seq<Event>, device: Device)

  /** The frames drawn, one render plan each. The loop test comes before each
      frame, so the frame whose batch stops the loop is still drawn, with
      every event of that batch applied. */
  function Loop(s: State, frames: seq<FrameInput>): (plans: seq<seq<DrawItem>>)
    decreases |frames|
    ensures |plans| <= |frames|
    ensures !s.running ==> plans == []
    ensures s.running && |frames| > 0 ==>
      |plans| >= 1 && plans[0] == RenderPlan(Run(s, frames[0].events), frames[0].device)
  {
    if !s.running || |frames| == 0 then []
    else
      var next := Run(s, frames[0].events);
      [RenderPlan(next, frames[0].device)] + Loop(next, frames[1..])
  }

  /** Index of the first frame whose batch holds a quit or Escape, or the
      number of frames when none does. */
  function StopFrame(frames: seq<FrameInput>): (k: nat)
    decreases |frames|
    ensures k <= |frames|
    ensures forall i :: 0 <= i < k ==> !HasStop(frames[i].events)
    ensures k < |frames| ==> HasStop(frames[k].events)
  {
    if |frames| == 0 then 0
    else if HasStop(frames[0].events) then 0
    else 1 + StopFrame(frames[1..])
  }

  lemma LoopLength(s: State, frames: seq<FrameInput>)
    requires s.running && |frames| > 0
    ensures |Loop(s, frames)| == 1 + |Loop(Run(s, frames[0].events), frames[1..])|
  {
  }

  /** A running loop draws every frame up to and including the first one
      that asks to stop, and no frame after it. */
  lemma {:induction false} FramesDrawn(s: State, frames: seq<FrameInput>)
    requires s.running
    ensures |Loop(s, frames)| == Min(StopFrame(frames) + 1, |frames|)
    decreases |frames|
  {
    if |frames| > 0 {
      var next := Run(s, frames[0].events);
      RunningAfterBatch(s, frames[0].events);
      LoopLength(s, frames);
      if HasStop(frames[0].events) {
        assert StopFrame(frames) == 0;
        assert Loop(next, frames[1..]) == [];
      } else {
        assert StopFrame(frames) == 1 + StopFrame(frames[1..]);
        FramesDrawn(next, frames[1..]);
      }
    }
  }
}
