/** What one update does in each branch of the state machine. */
module StepLaws {
  import opened StateMachine

  /** A disposed animation leaves the registry silently: no change calls, no end call,
      and only the finished flag changes. */
  lemma DisposeIsSilent(a: Animation, easing: Easing, now: real)
    requires WellFormed(a) && a.isDisposed
    ensures var o := Step(a, easing, now);
            o.tick == Tick([], false, true) && o.next == a.(isFinished := true)
  {
  }

  /** A finish request snaps every channel, in declaration order, to `initial + change`,
      calls the end callback once and leaves the registry. */
  lemma FinishSnapsToTargets(a: Animation, easing: Easing, now: real)
    requires WellFormed(a) && !a.isDisposed && a.isFinished
    ensures var o := Step(a, easing, now);
            o.next == a && o.tick.ended && o.tick.retired &&
            |o.tick.emitted| == |a.props| &&
            forall i :: 0 <= i < |a.props| ==>
              o.tick.emitted[i] == Emission(a.props[i], a.initials[a.props[i]] + a.changes[a.props[i]])
  {
  }

  /** A paused animation emits nothing; only its start time moves, by the library's rebase. */
  lemma PausedIsSilent(a: Animation, easing: Easing, now: real)
    requires WellFormed(a) && !a.isDisposed && !a.isFinished && !a.isAnimating
    ensures var o := Step(a, easing, now);
            o.tick == Tick([], false, false) &&
            o.next == a.(startTime := now - a.covered * 1000.0)
  {
  }

  /** A pending delay emits nothing, shrinks by the time since the start time, and moves
      the start time to now. */
  lemma DelayIsSilent(a: Animation, easing: Easing, now: real)
    requires WellFormed(a) && !a.isDisposed && !a.isFinished && a.isAnimating && a.delay > 0.0
    ensures var o := Step(a, easing, now);
            o.tick == Tick([], false, false) &&
            o.next == a.(delay := a.delay - (now - a.startTime), startTime := now)
  {
  }

  /** The conditions under which an update reaches the boundary branches. */
  predicate AtBoundary(a: Animation, now: real)
  {
    !a.isDisposed && !a.isFinished && a.isAnimating && a.delay <= 0.0 &&
    now - a.startTime >= a.duration
  }

  /** A yoyo boundary with crossings left reverses every channel: it emits the reversal
      pass, counts one crossing, restarts the clock and stays registered. */
  lemma YoyoBoundaryReverses(a: Animation, easing: Easing, now: real)
    requires WellFormed(a) && AtBoundary(a, now)
    requires a.yoyo && (a.repeatCount <= 0 || a.counted < a.repeatCount)
    ensures var o := Step(a, easing, now);
            var f := Flip(a.props, a.initials, a.changes);
            o.tick == Tick(f.emitted, false, false) &&
            o.next == a.(covered := now - a.startTime, channels := f.channels,
                         startTime := now, counted := a.counted + 1)
  {
  }

  /** A plain repeat re-emits every initial value, counts one crossing, restarts the clock
      and keeps the channel maps. A yoyo animation with no crossings left never gets here. */
  lemma RepeatBoundaryRestarts(a: Animation, easing: Easing, now: real)
    requires WellFormed(a) && AtBoundary(a, now)
    requires !a.yoyo && a.counted < a.repeatCount
    ensures var o := Step(a, easing, now);
            o.tick == Tick(Restarts(a.props, a.initials), false, false) &&
            o.next == a.(covered := now - a.startTime, startTime := now, counted := a.counted + 1)
  {
  }

  /** With no crossings left (in particular, for a non-yoyo animation whose repeat count is
      not positive, at the first boundary; and for an exhausted yoyo), the boundary finishes:
      every channel snaps to its current `initial + change`, the end callback runs and the
      animation leaves the registry. */
  lemma BoundaryFinishes(a: Animation, easing: Easing, now: real)
    requires WellFormed(a) && AtBoundary(a, now)
    requires !(a.yoyo && a.repeatCount <= 0) && a.counted >= a.repeatCount
    ensures var o := Step(a, easing, now);
            o.tick == Tick(Targets(a.props, a.initials, a.changes), true, true) &&
            o.next == a.(covered := now - a.startTime, isFinished := true)
  {
  }

  /** Before the boundary, each channel, in order, gets the easing curve's value, and the
      covered time is the only field that changes. */
  lemma InProgressEases(a: Animation, easing: Easing, now: real)
    requires WellFormed(a) && !a.isDisposed && !a.isFinished && a.isAnimating && a.delay <= 0.0
    requires now - a.startTime < a.duration
    ensures var o := Step(a, easing, now);
            var covered := now - a.startTime;
            o.next == a.(covered := covered) && !o.tick.ended && !o.tick.retired &&
            |o.tick.emitted| == |a.props| &&
            forall i :: 0 <= i < |a.props| ==>
              o.tick.emitted[i] ==
                Emission(a.props[i], easing(covered, a.initials[a.props[i]], a.changes[a.props[i]], a.duration))
  {
  }

  /** An update removes the animation from the registry exactly when it was disposed, was
      asked to finish, or reached a boundary with no crossings left; the end callback runs
      in the last two cases only. */
  lemma RetiresExactly(a: Animation, easing: Easing, now: real)
    requires WellFormed(a)
    ensures var o := Step(a, easing, now);
            var exhausted := AtBoundary(a, now) && !(a.yoyo && a.repeatCount <= 0) &&
                             a.counted >= a.repeatCount;
            (o.tick.retired <==> a.isDisposed || a.isFinished || exhausted) &&
            (o.tick.ended <==> !a.isDisposed && (a.isFinished || exhausted))
  {
  }

  /** As written, pausing with time covered and resuming moves the covered time by a
      thousand times the covered seconds. */
  lemma PauseThenResumeAsWritten(a: Animation, easing: Easing, t1: real, t2: real)
    requires WellFormed(a) && !a.isDisposed && !a.isFinished && !a.isAnimating && a.delay <= 0.0
    ensures var paused := Step(a, easing, t1).next;
            Step(paused.(isAnimating := true), easing, t2).next.covered == a.covered * 1000.0 + (t2 - t1)
  {
  }

  /** A concrete case: half of a one-second animation covered, paused at t = 10 and resumed
      one 50 Hz tick later. The resumed tick lands past the boundary and finishes the
      animation, instead of continuing at 0.52 seconds. */
  lemma ResumeSkipsToEnd(easing: Easing)
    ensures var a := Animation(["alpha"], 9.5, ChannelMaps(map["alpha" := 0.0], map["alpha" := 1.0]),
                               1.0, 0.5, 0.0, false, 0, 0, false, false, false);
            var paused := Step(a, easing, 10.0).next;
            var o := Step(paused.(isAnimating := true), easing, 10.02);
            o.next.covered == 500.02 && o.tick == Tick([Emission("alpha", 1.0)], true, true)
  {
  }

  /** With the intended rebase, resuming continues from the covered time reached before the
      pause, plus the time between the last paused tick and the resumed one. */
  lemma PauseThenResumeIntended(a: Animation, easing: Easing, t1: real, t2: real)
    requires WellFormed(a) && !a.isDisposed && !a.isFinished && !a.isAnimating && a.delay <= 0.0
    ensures var paused := StepWith(IntendedPauseRebase, a, easing, t1).next;
            var o := StepWith(IntendedPauseRebase, paused.(isAnimating := true), easing, t2);
            o.next.covered == a.covered + (t2 - t1) &&
            (a.covered + (t2 - t1) < a.duration ==> !o.tick.retired)
  {
  }
}
