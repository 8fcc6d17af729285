/** One animation driven through a sequence of ticks, as the driver loop does once per pass
    until the animation leaves the registry. */
module Runs {
  import opened StateMachine
  import opened StepLaws

  datatype Trace = Trace(final: Animation, ticks: seq<Tick>)

  /** The ticks at the given wall-clock times, stopping after the tick that retires the
      animation (the driver loop no longer sees it). */
  function Run(a: Animation, easing: Easing, times: seq<real>): (tr: Trace)
    requires WellFormed(a)
    ensures WellFormed(tr.final) && SameSetup(a, tr.final)
    ensures |tr.ticks| <= |times|
    ensures forall k :: 0 <= k < |tr.ticks| - 1 ==> !tr.ticks[k].retired
    ensures |tr.ticks| < |times| ==> tr.ticks != [] && tr.ticks[|tr.ticks| - 1].retired
    decreases |times|
  {
    if times == [] then Trace(a, [])
    else
      var o := Step(a, easing, times[0]);
      if o.tick.retired then Trace(o.next, [o.tick])
      else
        var rest := Run(o.next, easing, times[1..]);
        Trace(rest.final, [o.tick] + rest.ticks)
  }

  /** Unfolds a run whose first tick keeps the animation registered. */
  lemma RunContinues(a: Animation, easing: Easing, times: seq<real>)
    requires WellFormed(a) && times != [] && !Step(a, easing, times[0]).tick.retired
    ensures var o := Step(a, easing, times[0]);
            var rest := Run(o.next, easing, times[1..]);
            Run(a, easing, times) == Trace(rest.final, [o.tick] + rest.ticks)
  {
  }

  /** Every tick comes at least one duration after the previous one (the first, after the
      start time), so every tick of a running animation is a boundary. */
  predicate Crossings(start: real, duration: real, times: seq<real>)
  {
    (times != [] ==> times[0] - start >= duration) &&
    forall k :: 0 < k < |times| ==> times[k] - times[k - 1] >= duration
  }

  lemma CrossingsTail(start: real, duration: real, times: seq<real>)
    requires times != [] && Crossings(start, duration, times)
    ensures Crossings(times[0], duration, times[1..])
  {
    if |times| > 1 {
      assert times[1] - times[0] >= duration;
    }
    forall k | 0 < k < |times| - 1
      ensures times[1..][k] - times[1..][k - 1] >= duration
    {
      assert times[1..][k] == times[k + 1] && times[1..][k - 1] == times[k];
    }
  }

  /** The crossings a running animation still has before it finishes. */
  function CrossingsLeft(a: Animation): nat
  {
    if a.counted < a.repeatCount then a.repeatCount - a.counted else 0
  }

  /** A yoyo animation whose repeat count is not positive never finishes on its own: unless
      disposed or asked to finish, every tick keeps it registered and none calls the end
      callback. */
  lemma {:induction false} UnboundedYoyoNeverRetires(a: Animation, easing: Easing, times: seq<real>)
    requires WellFormed(a) && a.yoyo && a.repeatCount <= 0 && !a.isDisposed && !a.isFinished
    ensures var tr := Run(a, easing, times);
            |tr.ticks| == |times| &&
            forall k :: 0 <= k < |times| ==> !tr.ticks[k].retired && !tr.ticks[k].ended
    decreases |times|
  {
    if times != [] {
      var o := Step(a, easing, times[0]);
      assert !o.tick.retired && !o.next.isFinished;
      UnboundedYoyoNeverRetires(o.next, easing, times[1..]);
    }
  }

  /** At its k-th boundary an unbounded yoyo emits the reversal pass of its channels as they
      are after k earlier reversals, and it keeps counting crossings. */
  lemma {:induction false} UnboundedYoyoReverses(a: Animation, easing: Easing, times: seq<real>)
    requires WellFormed(a) && a.yoyo && a.repeatCount <= 0 && !a.isDisposed && !a.isFinished
    requires a.isAnimating && a.delay <= 0.0 && Crossings(a.startTime, a.duration, times)
    ensures var tr := Run(a, easing, times);
            |tr.ticks| == |times| &&
            (forall k :: 0 <= k < |times| ==>
               var m := Reversed(a.props, a.initials, a.changes, k);
               tr.ticks[k] == Tick(Flip(a.props, m.initials, m.changes).emitted, false, false)) &&
            tr.final.counted == a.counted + |times|
    decreases |times|
  {
    if times != [] {
      var o := Step(a, easing, times[0]);
      YoyoBoundaryReverses(a, easing, times[0]);
      CrossingsTail(a.startTime, a.duration, times);
      UnboundedYoyoReverses(o.next, easing, times[1..]);
      RunContinues(a, easing, times);
      var tr := Run(a, easing, times);
      var rest := Run(o.next, easing, times[1..]);
      forall k | 0 < k < |times|
        ensures var m := Reversed(a.props, a.initials, a.changes, k);
                tr.ticks[k] == Tick(Flip(a.props, m.initials, m.changes).emitted, false, false)
      {
        assert tr.ticks[k] == rest.ticks[k - 1];
        assert Reversed(a.props, a.initials, a.changes, k) ==
               Reversed(a.props, o.next.initials, o.next.changes, k - 1);
      }
    }
  }

  /** The boundaries of an unbounded yoyo with distinct channels alternate: each channel
      goes to `initial + change` at even-numbered boundaries and back to `initial` at
      odd-numbered ones. */
  lemma UnboundedYoyoAlternates(a: Animation, easing: Easing, times: seq<real>, k: nat, i: nat)
    requires WellFormed(a) && a.yoyo && a.repeatCount <= 0 && !a.isDisposed && !a.isFinished
    requires a.isAnimating && a.delay <= 0.0 && Crossings(a.startTime, a.duration, times)
    requires forall j, l :: 0 <= j < l < |a.props| ==> a.props[j] != a.props[l]
    requires k < |times| && i < |a.props|
    ensures var tr := Run(a, easing, times);
            var p := a.props[i];
            k < |tr.ticks| && |tr.ticks[k].emitted| == |a.props| &&
            tr.ticks[k].emitted[i] ==
              Emission(p, if k % 2 == 0 then a.initials[p] + a.changes[p] else a.initials[p])
  {
    UnboundedYoyoReverses(a, easing, times);
    ReversedParity(a.props, a.initials, a.changes, k);
    var f := Flip(a.props, a.initials, a.changes);
    FlipDistinct(a.props, a.initials, a.changes, i);
    FlipDistinct(a.props, f.initials, f.changes, i);
  }

  /** A non-yoyo animation with n crossings left restarts from its initial values at each of
      the next n boundaries and finishes at the one after, snapping to `initial + change`.
      With a repeat count that is not positive it finishes at its first boundary. */
  lemma {:induction false} RepeatsThenFinishes(a: Animation, easing: Easing, times: seq<real>)
    requires WellFormed(a) && !a.yoyo && !a.isDisposed && !a.isFinished
    requires a.isAnimating && a.delay <= 0.0 && Crossings(a.startTime, a.duration, times)
    requires |times| == CrossingsLeft(a) + 1
    ensures var tr := Run(a, easing, times);
            |tr.ticks| == |times| &&
            (forall k :: 0 <= k < |times| - 1 ==>
               tr.ticks[k] == Tick(Restarts(a.props, a.initials), false, false)) &&
            tr.ticks[|times| - 1] == Tick(Targets(a.props, a.initials, a.changes), true, true) &&
            tr.final.initials == a.initials && tr.final.changes == a.changes &&
            tr.final.isFinished
    decreases |times|
  {
    var o := Step(a, easing, times[0]);
    if a.counted < a.repeatCount {
      RepeatBoundaryRestarts(a, easing, times[0]);
      CrossingsTail(a.startTime, a.duration, times);
      RepeatsThenFinishes(o.next, easing, times[1..]);
      var tr := Run(a, easing, times);
      var rest := Run(o.next, easing, times[1..]);
      assert tr.ticks == [o.tick] + rest.ticks;
      forall k | 0 < k < |times|
        ensures tr.ticks[k] == rest.ticks[k - 1]
      {
      }
    } else {
      BoundaryFinishes(a, easing, times[0]);
    }
  }

  /** A yoyo animation with a positive repeat count reverses at each of its remaining
      crossings, emitting at the k-th the reversal pass of its channels as they are after k
      earlier reversals. */
  lemma {:induction false} FiniteYoyoReverses(a: Animation, easing: Easing, times: seq<real>)
    requires WellFormed(a) && a.yoyo && a.repeatCount > 0 && !a.isDisposed && !a.isFinished
    requires a.isAnimating && a.delay <= 0.0 && Crossings(a.startTime, a.duration, times)
    requires |times| == CrossingsLeft(a) + 1
    ensures var tr := Run(a, easing, times);
            |tr.ticks| == |times| &&
            forall k :: 0 <= k < |times| - 1 ==>
              var m := Reversed(a.props, a.initials, a.changes, k);
              tr.ticks[k] == Tick(Flip(a.props, m.initials, m.changes).emitted, false, false)
    decreases |times|
  {
    var o := Step(a, easing, times[0]);
    if a.counted < a.repeatCount {
      YoyoBoundaryReverses(a, easing, times[0]);
      CrossingsTail(a.startTime, a.duration, times);
      FiniteYoyoReverses(o.next, easing, times[1..]);
      RunContinues(a, easing, times);
      var tr := Run(a, easing, times);
      var rest := Run(o.next, easing, times[1..]);
      forall k | 0 < k < |times| - 1
        ensures var m := Reversed(a.props, a.initials, a.changes, k);
                tr.ticks[k] == Tick(Flip(a.props, m.initials, m.changes).emitted, false, false)
      {
        assert tr.ticks[k] == rest.ticks[k - 1];
        assert Reversed(a.props, a.initials, a.changes, k) ==
               Reversed(a.props, o.next.initials, o.next.changes, k - 1);
      }
    } else {
      BoundaryFinishes(a, easing, times[0]);
    }
  }

  /** After its remaining crossings, a yoyo animation with a positive repeat count finishes
      at the next boundary, snapping to `initial + change` of the channels as they are after
      all reversals, with the crossing count at the repeat count. */
  lemma {:induction false} FiniteYoyoThenFinishes(a: Animation, easing: Easing, times: seq<real>)
    requires WellFormed(a) && a.yoyo && a.repeatCount > 0 && !a.isDisposed && !a.isFinished
    requires a.isAnimating && a.delay <= 0.0 && Crossings(a.startTime, a.duration, times)
    requires |times| == CrossingsLeft(a) + 1
    ensures var tr := Run(a, easing, times);
            var last := |times| - 1;
            var end := Reversed(a.props, a.initials, a.changes, last);
            |tr.ticks| == |times| &&
            tr.ticks[last] == Tick(Targets(a.props, end.initials, end.changes), true, true) &&
            tr.final.counted == a.repeatCount && tr.final.isFinished
    decreases |times|
  {
    var o := Step(a, easing, times[0]);
    if a.counted < a.repeatCount {
      YoyoBoundaryReverses(a, easing, times[0]);
      CrossingsTail(a.startTime, a.duration, times);
      FiniteYoyoThenFinishes(o.next, easing, times[1..]);
      RunContinues(a, easing, times);
      var tr := Run(a, easing, times);
      var rest := Run(o.next, easing, times[1..]);
      var last := |times| - 1;
      assert tr.ticks[last] == rest.ticks[last - 1];
      assert Reversed(a.props, a.initials, a.changes, last) ==
             Reversed(a.props, o.next.initials, o.next.changes, last - 1);
    } else {
      BoundaryFinishes(a, easing, times[0]);
    }
  }

  /** A fresh yoyo animation (no crossings yet, its doubled, even repeat count) ends at the
      original targets `initial + change`: after all its reversals it runs one more forward
      pass before finishing. */
  lemma FreshYoyoEndsAtTargets(a: Animation, easing: Easing, times: seq<real>)
    requires WellFormed(a) && a.yoyo && a.repeatCount > 0 && a.repeatCount % 2 == 0 && a.counted == 0
    requires !a.isDisposed && !a.isFinished && a.isAnimating && a.delay <= 0.0
    requires Crossings(a.startTime, a.duration, times) && |times| == a.repeatCount + 1
    ensures var tr := Run(a, easing, times);
            |tr.ticks| == |times| &&
            tr.ticks[|times| - 1] == Tick(Targets(a.props, a.initials, a.changes), true, true)
  {
    FiniteYoyoThenFinishes(a, easing, times);
    ReversedParity(a.props, a.initials, a.changes, a.repeatCount);
    assert Reversed(a.props, a.initials, a.changes, a.repeatCount) == a.channels;
  }

  /** While a delay is pending nothing is emitted; the delay shrinks by the time elapsed
      since the start time, so it runs out once that much wall-clock time has passed. */
  lemma {:induction false} DelayHoldsBack(a: Animation, easing: Easing, times: seq<real>)
    requires WellFormed(a) && !a.isDisposed && !a.isFinished && a.isAnimating && a.delay > 0.0
    requires times != []
    requires forall k :: 0 <= k < |times| - 1 ==> times[k] - a.startTime < a.delay
    ensures var tr := Run(a, easing, times);
            var last := times[|times| - 1];
            |tr.ticks| == |times| &&
            (forall k :: 0 <= k < |times| ==> tr.ticks[k] == Tick([], false, false)) &&
            tr.final == a.(delay := a.delay - (last - a.startTime), startTime := last)
    decreases |times|
  {
    var o := Step(a, easing, times[0]);
    assert o.tick == Tick([], false, false);
    assert o.next == a.(delay := a.delay - (times[0] - a.startTime), startTime := times[0]);
    if |times| > 1 {
      forall k | 0 <= k < |times[1..]| - 1
        ensures times[1..][k] - o.next.startTime < o.next.delay
      {
        assert times[1..][k] == times[k + 1];
      }
      DelayHoldsBack(o.next, easing, times[1..]);
      var tr := Run(a, easing, times);
      var rest := Run(o.next, easing, times[1..]);
      assert tr.ticks == [o.tick] + rest.ticks;
      forall k | 0 < k < |times|
        ensures tr.ticks[k] == rest.ticks[k - 1]
      {
      }
    }
  }

  /** While paused nothing is emitted and nothing but the start time changes, however many
      ticks pass; the start time is rebased at each. */
  lemma {:induction false} PausedRunIsSilent(a: Animation, easing: Easing, times: seq<real>)
    requires WellFormed(a) && !a.isDisposed && !a.isFinished && !a.isAnimating
    requires times != []
    ensures var tr := Run(a, easing, times);
            |tr.ticks| == |times| &&
            (forall k :: 0 <= k < |times| ==> tr.ticks[k] == Tick([], false, false)) &&
            tr.final == a.(startTime := PauseRebase(times[|times| - 1], a.covered))
    decreases |times|
  {
    var o := Step(a, easing, times[0]);
    assert o.tick == Tick([], false, false);
    assert o.next == a.(startTime := PauseRebase(times[0], a.covered));
    if |times| > 1 {
      PausedRunIsSilent(o.next, easing, times[1..]);
      var tr := Run(a, easing, times);
      var rest := Run(o.next, easing, times[1..]);
      assert tr.ticks == [o.tick] + rest.ticks;
      forall k | 0 < k < |times|
        ensures tr.ticks[k] == rest.ticks[k - 1]
      {
      }
    }
  }

  /** One channel "x" from 0 to 10 over 0.2 s, yoyo with one repeat (stored as two
      crossings), ticked at each boundary: it emits 10, then 0, then runs a third, forward
      pass and finishes at 10 with one end call. */
  lemma YoyoOnceScenario(easing: Easing)
    ensures var a := Animation(["x"], 0.0, ChannelMaps(map["x" := 0.0], map["x" := 10.0]),
                               0.2, 0.0, 0.0, true, 2, 0, true, false, false);
            Run(a, easing, [0.2, 0.4, 0.6]).ticks ==
              [Tick([Emission("x", 10.0)], false, false),
               Tick([Emission("x", 0.0)], false, false),
               Tick([Emission("x", 10.0)], true, true)]
  {
    var a := Animation(["x"], 0.0, ChannelMaps(map["x" := 0.0], map["x" := 10.0]),
                       0.2, 0.0, 0.0, true, 2, 0, true, false, false);
    var times := [0.2, 0.4, 0.6];
    assert Crossings(a.startTime, a.duration, times);
    FiniteYoyoReverses(a, easing, times);
    FiniteYoyoThenFinishes(a, easing, times);
    var tr := Run(a, easing, times);
    var f := Flip(a.props, a.initials, a.changes);
    FlipDistinct(a.props, a.initials, a.changes, 0);
    FlipDistinct(a.props, f.initials, f.changes, 0);
    ReversedParity(a.props, a.initials, a.changes, 1);
    ReversedParity(a.props, a.initials, a.changes, 2);
    assert tr.ticks[0] == Tick([Emission("x", 10.0)], false, false);
    assert tr.ticks[1] == Tick([Emission("x", 0.0)], false, false);
    var targets := Targets(a.props, a.initials, a.changes);
    assert |targets| == 1 && targets[0] == Emission("x", 10.0);
    assert targets == [Emission("x", 10.0)];
    assert tr.ticks[2] == Tick(targets, true, true);
    assert tr.ticks == [tr.ticks[0], tr.ticks[1], tr.ticks[2]];
  }
}
