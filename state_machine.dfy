/** The per-animation tick state machine, as a function on values. Times and values are
    reals; the easing curve is an opaque function. */
module StateMachine {

  /** An easing curve: (elapsed, initial, change, duration) to the interpolated value. */
  type Easing = (real, real, real, real) -> real

  /** One call of the change callback: a channel name and the value handed to it. */
  datatype Emission = Emission(prop: string, value: real)

  /** What one update does besides changing the animation: the calls a set change callback
      receives, in order; whether a set end callback is called; and whether the animation
      leaves the registry. Either callback may be unset, and then nothing is called. */
  datatype Tick = Tick(emitted: seq<Emission>, ended: bool, retired: bool)

  /** Per channel name, the value the current pass starts from and the change it covers. */
  datatype ChannelMaps = ChannelMaps(initials: map<string, real>, changes: map<string, real>)

  /** The state of one animation: its channels, timing fields, counters and control flags. */
  datatype Animation = Animation(
    props: seq<string>,
    startTime: real,
    channels: ChannelMaps,
    duration: real,
    covered: real,
    delay: real,
    yoyo: bool,
    repeatCount: int,
    counted: int,
    isAnimating: bool,
    isFinished: bool,
    isDisposed: bool)
  {
    const initials := channels.initials
    const changes := channels.changes
  }

  datatype Outcome = Outcome(next: Animation, tick: Tick)

  /** Every channel has an initial value and a change. */
  predicate HasChannels(props: seq<string>, initials: map<string, real>, changes: map<string, real>)
  {
    forall k :: 0 <= k < |props| ==> props[k] in initials && props[k] in changes
  }

  /** The invariant every registered animation keeps: its channels are defined and the
      crossing counter never passes a positive repeat count. */
  predicate WellFormed(a: Animation)
  {
    HasChannels(a.props, a.initials, a.changes) &&
    0 <= a.counted &&
    (a.repeatCount > 0 ==> a.counted <= a.repeatCount)
  }

  /** The fields no tick changes. */
  predicate SameSetup(a: Animation, b: Animation)
  {
    b.props == a.props && b.duration == a.duration && b.yoyo == a.yoyo &&
    b.repeatCount == a.repeatCount && b.isAnimating == a.isAnimating &&
    b.isDisposed == a.isDisposed
  }

  /** Each channel snapped to its current target `initial + change`. */
  function Targets(props: seq<string>, initials: map<string, real>, changes: map<string, real>): (emitted: seq<Emission>)
    requires HasChannels(props, initials, changes)
  {
    seq(|props|, i requires 0 <= i < |props| => Emission(props[i], initials[props[i]] + changes[props[i]]))
  }

  /** Each channel reset to its initial value. */
  function Restarts(props: seq<string>, initials: map<string, real>): (emitted: seq<Emission>)
    requires forall p :: p in props ==> p in initials
  {
    seq(|props|, i requires 0 <= i < |props| => Emission(props[i], initials[props[i]]))
  }

  /** Each channel at the easing curve's value for the elapsed time. */
  function Eased(props: seq<string>, initials: map<string, real>, changes: map<string, real>,
                 easing: Easing, covered: real, duration: real): (emitted: seq<Emission>)
    requires HasChannels(props, initials, changes)
  {
    seq(|props|, i requires 0 <= i < |props| =>
      Emission(props[i], easing(covered, initials[props[i]], changes[props[i]], duration)))
  }

  /** A reversal pass in progress: the values emitted so far and the maps as they now are. */
  datatype Flipped = Flipped(emitted: seq<Emission>, channels: ChannelMaps)
  {
    const initials := channels.initials
    const changes := channels.changes
  }

  /** The yoyo reversal of one channel, when it has both an initial value and a change: emit
      `initial + change`, make that the new initial value and negate the change. A channel
      missing from either map is skipped. */
  function ReverseOne(p: string, f: Flipped): (g: Flipped)
  {
    if p in f.initials && p in f.changes then
      var changed := f.initials[p] + f.changes[p];
      Flipped(f.emitted + [Emission(p, changed)],
              ChannelMaps(f.initials[p := changed], f.changes[p := f.changes[p] * -1.0]))
    else f
  }

  /** The yoyo reversal pass: every channel reversed in turn, in order. A channel named twice
      is reversed twice. */
  function Flip(props: seq<string>, initials: map<string, real>, changes: map<string, real>): (f: Flipped)
    decreases |props|
  {
    if props == [] then Flipped([], ChannelMaps(initials, changes))
    else ReverseOne(props[|props| - 1], Flip(props[..|props| - 1], initials, changes))
  }

  /** When every channel is defined, a reversal pass keeps the keys of both maps and emits one
      value per channel. */
  lemma {:induction false} FlipKeys(props: seq<string>, initials: map<string, real>, changes: map<string, real>)
    requires HasChannels(props, initials, changes)
    ensures var f := Flip(props, initials, changes);
            f.initials.Keys == initials.Keys && f.changes.Keys == changes.Keys && |f.emitted| == |props|
    decreases |props|
  {
    if props != [] {
      var n := |props| - 1;
      assert HasChannels(props[..n], initials, changes) by {
        forall p | p in props[..n] ensures p in props { }
      }
      FlipKeys(props[..n], initials, changes);
      assert props[n] in props;
    }
  }

  /** The channel maps after k reversal passes. */
  function Reversed(props: seq<string>, initials: map<string, real>, changes: map<string, real>, k: nat): (m: ChannelMaps)
    requires HasChannels(props, initials, changes)
    ensures m.initials.Keys == initials.Keys && m.changes.Keys == changes.Keys
    decreases k
  {
    if k == 0 then ChannelMaps(initials, changes)
    else
      var f := Flip(props, initials, changes);
      FlipKeys(props, initials, changes);
      Reversed(props, f.initials, f.changes, k - 1)
  }

  /** The start time a paused tick sets, as written in the library: the covered seconds are
      scaled by 1000 before being subtracted. */
  function PauseRebase(now: real, covered: real): real
  {
    now - covered * 1000.0
  }

  /** The start time that would freeze the covered time across a pause. */
  function IntendedPauseRebase(now: real, covered: real): real
  {
    now - covered
  }

  /** One update of one animation at wall-clock time `now`, with the pause branch's start-time
      rebase given as `rebase`. The branches are tried in order: disposed, finished, paused,
      delayed, boundary (yoyo reversal, plain repeat, finish) and in progress. */
  function StepWith(rebase: (real, real) -> real, a: Animation, easing: Easing, now: real): (o: Outcome)
    requires WellFormed(a)
    ensures WellFormed(o.next) && SameSetup(a, o.next)
    ensures o.tick.ended ==> o.tick.retired
    ensures o.tick.retired <==> o.next.isFinished
    ensures a.counted <= o.next.counted <= a.counted + 1
  {
    if a.isDisposed then
      Outcome(a.(isFinished := true), Tick([], false, true))
    else if a.isFinished then
      Outcome(a, Tick(Targets(a.props, a.initials, a.changes), true, true))
    else if !a.isAnimating then
      Outcome(a.(startTime := rebase(now, a.covered)), Tick([], false, false))
    else if a.delay > 0.0 then
      Outcome(a.(delay := a.delay - (now - a.startTime), startTime := now), Tick([], false, false))
    else
      var b := a.(covered := now - a.startTime);
      if b.covered >= b.duration then
        if b.yoyo && (b.repeatCount <= 0 || b.repeatCount > b.counted) then
          var f := Flip(b.props, b.initials, b.changes);
          FlipKeys(b.props, b.initials, b.changes);
          Outcome(b.(channels := f.channels, startTime := now, counted := b.counted + 1),
                  Tick(f.emitted, false, false))
        else if b.counted < b.repeatCount then
          Outcome(b.(startTime := now, counted := b.counted + 1),
                  Tick(Restarts(b.props, b.initials), false, false))
        else
          Outcome(b.(isFinished := true), Tick(Targets(b.props, b.initials, b.changes), true, true))
      else
        Outcome(b, Tick(Eased(b.props, b.initials, b.changes, easing, b.covered, b.duration), false, false))
  }

  /** One update as the library performs it. */
  function Step(a: Animation, easing: Easing, now: real): (o: Outcome)
    requires WellFormed(a)
    ensures WellFormed(o.next) && SameSetup(a, o.next)
    ensures o.tick.ended ==> o.tick.retired
    ensures o.tick.retired <==> o.next.isFinished
    ensures a.counted <= o.next.counted <= a.counted + 1
  {
    StepWith(PauseRebase, a, easing, now)
  }

  /** Whether a channel name occurs an odd number of times in a list of names. */
  function OddTimes(props: seq<string>, p: string): (odd: bool)
    decreases |props|
  {
    if props == [] then false else (props[|props| - 1] == p) != OddTimes(props[..|props| - 1], p)
  }

  /** A name that does not occur does not occur an odd number of times. */
  lemma {:induction false} OddTimesAbsent(props: seq<string>, p: string)
    requires p !in props
    ensures !OddTimes(props, p)
    decreases |props|
  {
    if props != [] {
      var n := |props| - 1;
      assert p !in props[..n];
      OddTimesAbsent(props[..n], p);
    }
  }

  /** In a list of distinct names, each name occurs once, an odd number of times. */
  lemma {:induction false} OddTimesDistinct(props: seq<string>, i: nat)
    requires i < |props|
    requires forall j, k :: 0 <= j < k < |props| ==> props[j] != props[k]
    ensures OddTimes(props, props[i])
    decreases |props|
  {
    var n := |props| - 1;
    if i == n {
      assert props[i] !in props[..n];
      OddTimesAbsent(props[..n], props[i]);
    } else {
      assert props[..n][i] == props[i];
      OddTimesDistinct(props[..n], i);
    }
  }

  /** After a reversal pass, a channel named an odd number of times is reversed once and a
      channel named an even number of times is back where it was. */
  lemma {:induction false} FlipParity(props: seq<string>, initials: map<string, real>,
                                      changes: map<string, real>, p: string)
    requires p in initials && p in changes
    ensures var f := Flip(props, initials, changes);
            var odd := OddTimes(props, p);
            p in f.initials && p in f.changes &&
            f.initials[p] == (if odd then initials[p] + changes[p] else initials[p]) &&
            f.changes[p] == (if odd then -changes[p] else changes[p])
    decreases |props|
  {
    if props != [] {
      FlipParity(props[..|props| - 1], initials, changes, p);
    }
  }

  /** A reversal pass leaves the entries of unnamed channels alone. */
  lemma {:induction false} FlipUntouched(props: seq<string>, initials: map<string, real>,
                                         changes: map<string, real>, p: string)
    requires p !in props
    ensures var f := Flip(props, initials, changes);
            (p in f.initials <==> p in initials) && (p in f.changes <==> p in changes) &&
            (p in initials ==> f.initials[p] == initials[p]) &&
            (p in changes ==> f.changes[p] == changes[p])
    decreases |props|
  {
    if props != [] {
      var n := |props| - 1;
      assert p !in props[..n];
      FlipUntouched(props[..n], initials, changes, p);
    }
  }

  /** At the first position naming a channel, a reversal pass emits that channel's target
      `initial + change`. */
  lemma {:induction false} FlipEmitsTarget(props: seq<string>, initials: map<string, real>,
                                           changes: map<string, real>, i: nat)
    requires HasChannels(props, initials, changes) && i < |props|
    requires forall j :: 0 <= j < i ==> props[j] != props[i]
    ensures |Flip(props, initials, changes).emitted| == |props|
    ensures Flip(props, initials, changes).emitted[i] ==
              Emission(props[i], initials[props[i]] + changes[props[i]])
    decreases |props|
  {
    var n := |props| - 1;
    FlipKeys(props, initials, changes);
    assert HasChannels(props[..n], initials, changes) by {
      forall p | p in props[..n] ensures p in props { }
    }
    FlipKeys(props[..n], initials, changes);
    assert props[n] in props;
    if i < n {
      assert props[..n][i] == props[i];
      FlipEmitsTarget(props[..n], initials, changes, i);
    } else {
      assert props[i] !in props[..n];
      FlipUntouched(props[..n], initials, changes, props[i]);
    }
  }

  /** Two reversal passes restore both maps. */
  lemma FlipTwiceRestores(props: seq<string>, initials: map<string, real>, changes: map<string, real>)
    requires HasChannels(props, initials, changes)
    ensures var f := Flip(props, initials, changes);
            var g := Flip(props, f.initials, f.changes);
            g.initials == initials && g.changes == changes
  {
    var f := Flip(props, initials, changes);
    FlipKeys(props, initials, changes);
    var g := Flip(props, f.initials, f.changes);
    FlipKeys(props, f.initials, f.changes);
    forall p | p in initials && p in changes
      ensures g.initials[p] == initials[p] && g.changes[p] == changes[p]
    {
      FlipParity(props, initials, changes, p);
      FlipParity(props, f.initials, f.changes, p);
    }
    forall p | p in initials && p !in changes ensures g.initials[p] == initials[p] {
      FlipUntouched(props, initials, changes, p);
      FlipUntouched(props, f.initials, f.changes, p);
    }
    forall p | p in changes && p !in initials ensures g.changes[p] == changes[p] {
      FlipUntouched(props, initials, changes, p);
      FlipUntouched(props, f.initials, f.changes, p);
    }
  }

  /** An even number of reversal passes restores the channel maps; an odd number leaves
      them as one pass does. */
  lemma {:induction false} ReversedParity(props: seq<string>, initials: map<string, real>,
                                          changes: map<string, real>, k: nat)
    requires HasChannels(props, initials, changes)
    ensures var f := Flip(props, initials, changes);
            Reversed(props, initials, changes, k) ==
              if k % 2 == 0 then ChannelMaps(initials, changes) else ChannelMaps(f.initials, f.changes)
    decreases k
  {
    if k >= 2 {
      var f := Flip(props, initials, changes);
      FlipTwiceRestores(props, initials, changes);
      var g := Flip(props, f.initials, f.changes);
      assert Reversed(props, initials, changes, k) == Reversed(props, g.initials, g.changes, k - 2);
      ReversedParity(props, initials, changes, k - 2);
    }
  }

  /** With distinct channel names, a reversal pass emits every target in order, moves every
      initial value to its target and negates every change. */
  lemma FlipDistinct(props: seq<string>, initials: map<string, real>, changes: map<string, real>, i: nat)
    requires HasChannels(props, initials, changes) && i < |props|
    requires forall j, k :: 0 <= j < k < |props| ==> props[j] != props[k]
    ensures var f := Flip(props, initials, changes);
            var p := props[i];
            |f.emitted| == |props| && p in f.initials && p in f.changes &&
            f.emitted[i] == Emission(p, initials[p] + changes[p]) &&
            f.initials[p] == initials[p] + changes[p] &&
            f.changes[p] == -changes[p]
  {
    var p := props[i];
    assert p in props;
    FlipEmitsTarget(props, initials, changes, i);
    FlipParity(props, initials, changes, p);
    OddTimesDistinct(props, i);
  }
}
