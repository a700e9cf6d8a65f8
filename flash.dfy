/** The lightning flash as a state machine over two values: whether a flash is
    active (`lightningRef.current`) and the current `fade`. One transition per
    animation frame, one for the reset timer. */
module Flash {
  import opened Common

  /** Per-frame chance of a new flash: `Math.random() < 0.01`. */
  const TriggerChance: real := 0.01

  /** What `fade` loses on every frame that draws the flash. */
  const FadeStep: real := 0.07

  datatype FlashState = FlashState(active: bool, fade: real)

  /** Before the first frame: no flash, nothing to fade. */
  const Idle := FlashState(false, 0.0)

  predicate FadeInRange(s: FlashState) {
    0.0 <= s.fade <= 1.0
  }

  /** The frame draws the bolt and the creature: `lightningRef.current || fade > 0`. */
  predicate Drawn(s: FlashState) {
    s.active || s.fade > 0.0
  }

  /** The frame starts a new flash: none is active and the roll is under 1%. */
  predicate Triggers(s: FlashState, roll: Roll) {
    !s.active && roll < TriggerChance
  }

  /** `fade -= 0.07; if (fade < 0) fade = 0;` */
  function Decay(fade: real): (f: real)
    ensures f == Max(0.0, fade - FadeStep)
  {
    var f := fade - FadeStep;
    if f < 0.0 then 0.0 else f
  }

  /** The flash part of one `animate` frame: a drawn frame decays `fade`, then a
      successful trigger roll (only possible with no flash active) starts a
      flash at full fade. `fade` stays in [0, 1] and nothing but a trigger raises
      it; an active flash can only be ended by the reset timer. */
  function Tick(s: FlashState, roll: Roll): (t: FlashState)
    ensures FadeInRange(s) ==> FadeInRange(t)
    ensures 0.0 <= s.fade < t.fade ==> Triggers(s, roll) && t == FlashState(true, 1.0)
    ensures Triggers(s, roll) ==> t == FlashState(true, 1.0)
    ensures !Triggers(s, roll) ==> t.active == s.active
    ensures s.active ==> t.active
    ensures !Triggers(s, roll) && !Drawn(s) ==> t == s
    ensures !Triggers(s, roll) && Drawn(s) ==> t == FlashState(s.active, Decay(s.fade))
  {
    var fade := if Drawn(s) then Decay(s.fade) else s.fade;
    if Triggers(s, roll) then FlashState(true, 1.0) else FlashState(s.active, fade)
  }

  /** The reset timer firing: `lightningRef.current = false`, `fade` untouched. */
  function ResetFires(s: FlashState): (t: FlashState)
    ensures !t.active && t.fade == s.fade
  {
    FlashState(false, s.fade)
  }

  /** The reset timer's delay in milliseconds: `60 + Math.random() * 100`. */
  function ResetDelay(r: Roll): (ms: real)
    ensures 60.0 <= ms < 160.0
  {
    60.0 + r * 100.0
  }

  /** Consecutive frames with the given trigger rolls and no reset in between. */
  function Run(s: FlashState, rolls: seq<Roll>): FlashState
    decreases |rolls|
  {
    if rolls == [] then s else Run(Tick(s, rolls[0]), rolls[1..])
  }

  /** While a flash stays active every frame is drawn and no roll can retrigger,
      so after `n` frames the fade has lost `n` steps, stopping at 0. */
  lemma {:induction false} ActiveRunDecays(s: FlashState, rolls: seq<Roll>)
    requires s.active && 0.0 <= s.fade
    ensures Run(s, rolls) == FlashState(true, Max(0.0, s.fade - |rolls| as real * FadeStep))
    decreases |rolls|
  {
    if rolls != [] {
      var t := Tick(s, rolls[0]);
      assert t == FlashState(true, Max(0.0, s.fade - FadeStep));
      ActiveRunDecays(t, rolls[1..]);
    }
  }

  /** What can happen to the flash between two renders: an animation frame
      with its trigger roll, or the reset timer firing. */
  datatype Event = FrameEv(roll: Roll) | ResetEv

  function Step(s: FlashState, e: Event): FlashState {
    match e
    case FrameEv(roll) => Tick(s, roll)
    case ResetEv => ResetFires(s)
  }

  /** The state after a sequence of events, in order. */
  function Replay(s: FlashState, events: seq<Event>): FlashState
    decreases |events|
  {
    if events == [] then s else Replay(Step(s, events[0]), events[1..])
  }

  /** The number of animation frames among the events. */
  function FrameCount(events: seq<Event>): nat
    decreases |events|
  {
    if events == [] then 0 else (if events[0].FrameEv? then 1 else 0) + FrameCount(events[1..])
  }

  /** No frame among the events, replayed from `s`, starts a new flash. A low
      roll on a frame while the flash is still active starts nothing. */
  predicate NoNewFlash(s: FlashState, events: seq<Event>)
    decreases |events|
  {
    events == []
    || ((events[0].FrameEv? ==> !Triggers(s, events[0].roll))
        && NoNewFlash(Step(s, events[0]), events[1..]))
  }

  /** Every trigger roll among the events misses. */
  predicate AllRollsMiss(events: seq<Event>) {
    forall i :: 0 <= i < |events| && events[i].FrameEv? ==> events[i].roll >= TriggerChance
  }

  /** Rolls that all miss start no flash, from whatever state. */
  lemma {:induction false} MissedRollsStartNoFlash(s: FlashState, events: seq<Event>)
    requires AllRollsMiss(events)
    ensures NoNewFlash(s, events)
    decreases |events|
  {
    if events != [] {
      assert AllRollsMiss(events[1..]) by {
        forall i | 0 <= i < |events[1..]| && events[1..][i].FrameEv?
          ensures events[1..][i].roll >= TriggerChance
        {
          assert events[1..][i] == events[i + 1];
        }
      }
      MissedRollsStartNoFlash(Step(s, events[0]), events[1..]);
    }
  }

  /** Without a new flash, every frame takes one step off the fade, stopping at
      0, whether the reset timer ends the flash before, during or after the
      fade-out: a reset clears only the active flag, and a fading flash is
      drawn (and decays) whether or not it is still active. */
  lemma {:induction false} FadeWithoutRetrigger(s: FlashState, events: seq<Event>)
    requires 0.0 <= s.fade && NoNewFlash(s, events)
    ensures Replay(s, events).fade == Max(0.0, s.fade - FrameCount(events) as real * FadeStep)
    decreases |events|
  {
    if events != [] {
      var t := Step(s, events[0]);
      match events[0] {
        case FrameEv(roll) =>
          assert !Triggers(s, roll);
          assert t.fade == Max(0.0, s.fade - FadeStep);
        case ResetEv =>
          assert t.fade == s.fade;
      }
      FadeWithoutRetrigger(t, events[1..]);
    }
  }

  /** Ten frames after a flash starts at full fade, with no new flash in
      between, the fade is 0.3, wherever the reset falls among them. */
  lemma TenFramesAfterTrigger(events: seq<Event>)
    requires FrameCount(events) == 10 && NoNewFlash(FlashState(true, 1.0), events)
    ensures Replay(FlashState(true, 1.0), events).fade == 0.3
  {
    FadeWithoutRetrigger(FlashState(true, 1.0), events);
  }

  /** A roll under 1% while the flash is still active starts nothing, so a
      run with such a roll, then the reset, then nine more frames, also ends
      at fade 0.3. */
  lemma LowRollBeforeResetStillFades()
    ensures Replay(FlashState(true, 1.0), [FrameEv(0.005), ResetEv] + seq(9, _ => FrameEv(0.5))).fade == 0.3
  {
    var misses: seq<Event> := seq(9, _ => FrameEv(0.5));
    var s1 := Step(FlashState(true, 1.0), FrameEv(0.005));
    var s2 := Step(s1, ResetEv);
    assert FrameCount(misses) == 9 && NoNewFlash(s2, misses) by {
      assert AllRollsMiss(misses);
      MissedRollsStartNoFlash(s2, misses);
      OnlyFrames(misses);
    }
    var events := [FrameEv(0.005), ResetEv] + misses;
    assert events[1..] == [ResetEv] + misses && events[1..][1..] == misses;
    TenFramesAfterTrigger(events);
  }

  /** Events that are all frames count one frame each. */
  lemma {:induction false} OnlyFrames(events: seq<Event>)
    requires forall i :: 0 <= i < |events| ==> events[i].FrameEv?
    ensures FrameCount(events) == |events|
    decreases |events|
  {
    if events != [] {
      assert forall i :: 0 <= i < |events[1..]| ==> events[1..][i] == events[i + 1];
      OnlyFrames(events[1..]);
    }
  }

  /** Fifteen frames are enough to fade a flash out completely, with or without
      the reset. */
  lemma FadedOutAfterFifteenFrames(events: seq<Event>)
    requires FrameCount(events) >= 15 && NoNewFlash(FlashState(true, 1.0), events)
    ensures Replay(FlashState(true, 1.0), events).fade == 0.0
  {
    FadeWithoutRetrigger(FlashState(true, 1.0), events);
  }

  /** With no flash and no fade left, frames whose rolls all miss draw nothing
      and change nothing. */
  lemma {:induction false} IdleUntilTriggered(rolls: seq<Roll>)
    requires forall i :: 0 <= i < |rolls| ==> rolls[i] >= TriggerChance
    ensures Run(Idle, rolls) == Idle
    decreases |rolls|
  {
    if rolls != [] {
      assert Tick(Idle, rolls[0]) == Idle;
      IdleUntilTriggered(rolls[1..]);
    }
  }
}
