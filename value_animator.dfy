/** The animator objects and the registry that drives them. The animator's fields are updated
    in place; each update is proved to do what the state machine `Step` says. */
module ValueAnimator {
  import opened StateMachine
  import opened StepLaws
  import opened Options
  import opened Channels

  /** The animation the factory builds: channel maps from the parallel arrays, the option
      bundle (or its defaults, with a positive yoyo count doubled), the start time `now`, no
      crossings counted, and every control flag off. */
  function Built(props: seq<string>, from: seq<real>, to: seq<real>, duration: real,
                 option: Maybe<Option>, now: real): (a: Animation)
    requires |props| <= |from| && |props| <= |to|
    ensures WellFormed(a)
  {
    var s := Applied(option);
    AssignKeys(props, from);
    AssignKeys(props, Deltas(from, to, |props|));
    Animation(props, now, ChannelMaps(Assign(props, from), Assign(props, Deltas(from, to, |props|))),
              duration, 0.0, s.delay, s.yoyo, s.repeatCount, 0, false, false, false)
  }

  /** Each channel named for the last time at index i starts at `from[i]` and heads for
      `to[i]`; without an option bundle there is no yoyo, no repeat and no delay; nothing is
      counted and every flag is off. */
  lemma BuiltFromArrays(props: seq<string>, from: seq<real>, to: seq<real>, duration: real,
                        option: Maybe<Option>, now: real, i: nat)
    requires |props| <= |from| && |props| <= |to| && i < |props|
    requires forall j :: i < j < |props| ==> props[j] != props[i]
    ensures var a := Built(props, from, to, duration, option, now);
            var p := props[i];
            a.initials[p] == from[i] && a.initials[p] + a.changes[p] == to[i] &&
            (option.None? ==> !a.yoyo && a.repeatCount == 0 && a.delay == 0.0) &&
            a.counted == 0 && !a.isAnimating && !a.isFinished && !a.isDisposed
  {
    ChannelsFromArrays(props, from, to, i);
  }

  /** The factory never resumes what it builds: until resumed, a new animation emits nothing
      on any update, stays registered, and keeps its maps, counter and delay. */
  lemma BuiltStartsPaused(props: seq<string>, from: seq<real>, to: seq<real>, duration: real,
                          option: Maybe<Option>, now: real, easing: Easing, later: real)
    requires |props| <= |from| && |props| <= |to|
    ensures var a := Built(props, from, to, duration, option, now);
            var o := Step(a, easing, later);
            o.tick == Tick([], false, false) &&
            o.next.initials == a.initials && o.next.changes == a.changes &&
            o.next.counted == a.counted && o.next.delay == a.delay
  {
    var a := Built(props, from, to, duration, option, now);
    PausedIsSilent(a, easing, later);
  }

  /** The single-channel factory without options builds exactly the one-entry maps. */
  lemma BuiltOne(prop: string, from: real, to: real, duration: real, now: real)
    ensures Built([prop], [from], [to], duration, None, now) ==
            Animation([prop], now, ChannelMaps(map[prop := from], map[prop := to - from]),
                      duration, 0.0, 0.0, false, 0, 0, false, false, false)
  {
    assert [prop][..0] == [];
    assert Deltas([from], [to], 1) == [to - from];
    assert Assign([prop], [from]) == map[prop := from];
    assert Assign([prop], [to - from]) == map[prop := to - from];
  }

  /** One animation: its channels, timing, counters, control flags and easing curve. */
  class Animator {
    var props: seq<string>
    var startTime: real
    var initials: map<string, real>
    var changes: map<string, real>
    var duration: real
    var easing: Easing
    /** Seconds covered on the timeline. */
    var covered: real
    /** Seconds still to wait before the first frame. */
    var delay: real
    var yoyo: bool
    var repeatCount: int
    /** Boundary crossings so far. */
    var counted: int
    var isAnimating: bool
    var isFinished: bool
    var isDisposed: bool

    /** The animator's state as a value of the state machine. */
    function Model(): Animation
      reads this
    {
      Animation(props, startTime, ChannelMaps(initials, changes), duration, covered, delay,
                yoyo, repeatCount, counted, isAnimating, isFinished, isDisposed)
    }

    predicate Valid()
      reads this
    {
      WellFormed(Model())
    }

    /** The factory's construction: the field initialisers (no channels, a one-second
        duration, everything else zero or off), then the factory's writes in the library's
        order. For each name in order the start value and the change `to - from` are stored,
        so a repeated name keeps the values of its last occurrence; then the duration, the
        easing curve, the option bundle (a positive yoyo count doubled) and the start time. */
    constructor Made(names: seq<string>, from: seq<real>, to: seq<real>, span: real,
                     curve: Easing, option: Maybe<Option>, now: real)
      requires |names| <= |from| && |names| <= |to|
      ensures Model() == Built(names, from, to, span, option, now) && easing == curve
    {
      props := [];
      startTime := 0.0;
      initials := map[];
      changes := map[];
      duration := 1.0;
      covered := 0.0;
      delay := 0.0;
      yoyo := false;
      repeatCount := 0;
      counted := 0;
      isAnimating := false;
      isFinished := false;
      isDisposed := false;

      props := names;
      ghost var deltas := Deltas(from, to, |names|);
      var starts: map<string, real> := map[];
      var deltaMap: map<string, real> := map[];
      var i := 0;
      while i < |names|
        invariant 0 <= i <= |names|
        invariant starts == Assign(names[..i], from)
        invariant deltaMap == Assign(names[..i], deltas)
      {
        var p := names[i];
        AssignSnoc(names, from, i);
        AssignSnoc(names, deltas, i);
        DeltasAt(from, to, |names|, i);
        starts := starts[p := from[i]];
        deltaMap := deltaMap[p := to[i] - from[i]];
        i := i + 1;
      }
      assert names[..i] == names;
      initials := starts;
      changes := deltaMap;
      duration := span;
      easing := curve;
      var setYoyo, setCount := false, 0;
      if option.Some? {
        yoyo := option.value.yoyo;
        repeatCount := option.value.repeatCount;
        delay := option.value.delay;
        setYoyo, setCount := option.value.yoyo, option.value.repeatCount;
      }
      if setYoyo && setCount > 0 {
        repeatCount := setCount * 2;
      }
      startTime := now;
    }

    method Resume()
      modifies this
      ensures Model() == old(Model()).(isAnimating := true) && easing == old(easing)
    {
      isAnimating := true;
    }

    method Pause()
      modifies this
      ensures Model() == old(Model()).(isAnimating := false) && easing == old(easing)
    {
      isAnimating := false;
    }

    /** Asks the driver to finish the animation on its next update. */
    method Finish()
      modifies this
      ensures Model() == old(Model()).(isFinished := true) && easing == old(easing)
    {
      isFinished := true;
    }

    /** Asks the driver to drop the animation on its next update. */
    method Dispose()
      modifies this
      ensures Model() == old(Model()).(isDisposed := true) && easing == old(easing)
    {
      isDisposed := true;
    }

    /** The yoyo reversal loop: for each channel in order, emit `initial + change`, store it
        as the new initial value and negate the change. */
    method ReverseChannels() returns (emitted: seq<Emission>)
      modifies this`initials, this`changes
      ensures Flipped(emitted, ChannelMaps(initials, changes)) == Flip(props, old(initials), old(changes))
    {
      emitted := [];
      var i := 0;
      while i < |props|
        invariant 0 <= i <= |props|
        invariant Flipped(emitted, ChannelMaps(initials, changes)) == Flip(props[..i], old(initials), old(changes))
      {
        var p := props[i];
        assert props[..i + 1][..i] == props[..i];
        if p in initials && p in changes {
          var changed := initials[p] + changes[p];
          emitted := emitted + [Emission(p, changed)];
          initials := initials[p := changed];
          changes := changes[p := changes[p] * -1.0];
        }
        i := i + 1;
      }
      assert props[..i] == props;
    }

    /** A yoyo crossing: reverse every channel, restart the clock at `now` and count the
        crossing. */
    method Bounce(now: real) returns (emitted: seq<Emission>)
      modifies this
      ensures var f := Flip(old(props), old(initials), old(changes));
              emitted == f.emitted &&
              Model() == old(Model()).(channels := f.channels, startTime := now, counted := old(counted) + 1)
      ensures easing == old(easing)
    {
      emitted := ReverseChannels();
      startTime := now;
      counted := counted + 1;
    }

    /** The plain-repeat loop: each channel's initial value, in order. */
    method RestartValues() returns (emitted: seq<Emission>)
      requires Valid()
      ensures emitted == Restarts(props, initials)
    {
      emitted := [];
      var i := 0;
      while i < |props|
        invariant 0 <= i <= |props|
        invariant emitted == Restarts(props[..i], initials)
      {
        var p := props[i];
        if p in initials {
          emitted := emitted + [Emission(p, initials[p])];
        }
        i := i + 1;
      }
      assert props[..i] == props;
    }

    /** The in-progress loop: each channel at the easing curve's value, in order. */
    method EasedValues() returns (emitted: seq<Emission>)
      requires Valid()
      ensures emitted == Eased(props, initials, changes, easing, covered, duration)
    {
      emitted := [];
      var i := 0;
      while i < |props|
        invariant 0 <= i <= |props|
        invariant emitted == Eased(props[..i], initials, changes, easing, covered, duration)
      {
        var p := props[i];
        emitted := emitted + [Emission(p, easing(covered, initials[p], changes[p], duration))];
        i := i + 1;
      }
      assert props[..i] == props;
    }

    /** The finishing loop: each channel at its target `initial + change`, in order. */
    method TargetValues() returns (emitted: seq<Emission>)
      requires Valid()
      ensures emitted == Targets(props, initials, changes)
    {
      emitted := [];
      var i := 0;
      while i < |props|
        invariant 0 <= i <= |props|
        invariant emitted == Targets(props[..i], initials, changes)
      {
        var p := props[i];
        if p in initials && p in changes {
          emitted := emitted + [Emission(p, initials[p] + changes[p])];
        }
        i := i + 1;
      }
      assert props[..i] == props;
    }
  }

  /** The library-wide state: the set of registered animators and the last wall-clock time
      an update read. */
  class Registry {
    var aniList: set<Animator>
    var nowTime: real

    /** Every registered animator keeps the state machine's invariant. */
    ghost predicate Valid()
      reads this, aniList
    {
      forall a :: a in aniList ==> a.Valid()
    }

    constructor ()
      ensures aniList == {} && nowTime == 0.0
    {
      aniList := {};
      nowTime := 0.0;
    }

    /** Marks every registered animator as finished; the next update of each finishes it. */
    method FinishAll()
      requires Valid()
      modifies aniList
      ensures Valid()
      ensures forall a :: a in aniList ==>
                a.Model() == old(a.Model()).(isFinished := true) && a.easing == old(a.easing)
    {
      var rest := aniList;
      while rest != {}
        invariant rest <= aniList
        invariant forall a :: a in aniList && a !in rest ==>
                    a.Model() == old(a.Model()).(isFinished := true) && a.easing == old(a.easing)
        invariant forall a :: a in rest ==> unchanged(a)
        decreases rest
      {
        var a :| a in rest;
        a.Finish();
        rest := rest - {a};
      }
    }

    /** Empties the registry; the animators themselves are left as they are. */
    method DisposeAll()
      modifies this
      ensures aniList == {} && nowTime == old(nowTime)
    {
      aniList := {};
    }

    /** The factory: builds an animator from parallel arrays of channel names, start values
        and end values, registers it and returns it. `linear` is the easing used when none
        is given. */
    method Animate(props: seq<string>, from: seq<real>, to: seq<real>, duration: real,
                   easing: Maybe<Easing>, linear: Easing, option: Maybe<Option>, now: real)
      returns (ani: Animator)
      requires |props| <= |from| && |props| <= |to|
      requires Valid()
      modifies this
      ensures fresh(ani) && ani.Valid() && Valid()
      ensures ani.Model() == Built(props, from, to, duration, option, now)
      ensures ani.easing == (if easing.Some? then easing.value else linear)
      ensures aniList == old(aniList) + {ani} && nowTime == old(nowTime)
    {
      var curve: Easing := if easing.Some? then easing.value else linear;
      ani := new Animator.Made(props, from, to, duration, curve, option, now);
      aniList := aniList + {ani};
    }

    /** The one-channel factory with the given easing (or the linear one) and options. */
    method AnimateOne(prop: string, from: real, to: real, duration: real,
                      easing: Maybe<Easing>, linear: Easing, option: Maybe<Option>, now: real)
      returns (ani: Animator)
      requires Valid()
      modifies this
      ensures fresh(ani) && ani.Valid() && Valid()
      ensures ani.Model() == Built([prop], [from], [to], duration, option, now)
      ensures ani.easing == (if easing.Some? then easing.value else linear)
      ensures aniList == old(aniList) + {ani} && nowTime == old(nowTime)
    {
      ani := Animate([prop], [from], [to], duration, easing, linear, option, now);
    }

    /** The shorthand factory: one channel from `from` to `to`, with the sine ease-out curve
        and no options. */
    method Of(prop: string, from: real, to: real, duration: real, sineOut: Easing, now: real)
      returns (ani: Animator)
      requires Valid()
      modifies this
      ensures fresh(ani) && ani.Valid() && Valid()
      ensures ani.Model() == Animation([prop], now, ChannelMaps(map[prop := from], map[prop := to - from]),
                                       duration, 0.0, 0.0, false, 0, 0, false, false, false)
      ensures ani.easing == sineOut
      ensures aniList == old(aniList) + {ani} && nowTime == old(nowTime)
    {
      ani := Animate([prop], [from], [to], duration, Some(sineOut), sineOut, None, now);
      BuiltOne(prop, from, to, duration, now);
    }

    /** Drops an animator: it leaves the registry and is marked finished, with no callbacks. */
    method Dispose(ani: Animator)
      modifies this, ani
      ensures aniList == old(aniList) - {ani} && nowTime == old(nowTime)
      ensures ani.Model() == old(ani.Model()).(isFinished := true) && ani.easing == old(ani.easing)
    {
      aniList := aniList - {ani};
      ani.isFinished := true;
    }

    /** Finishes an animator: it leaves the registry, every channel is snapped to its target
        in order, and it is marked finished; the caller then runs the end callback. */
    method Finish(ani: Animator) returns (emitted: seq<Emission>)
      requires ani.Valid()
      modifies this, ani
      ensures aniList == old(aniList) - {ani} && nowTime == old(nowTime)
      ensures emitted == Targets(old(ani.props), old(ani.initials), old(ani.changes))
      ensures ani.Model() == old(ani.Model()).(isFinished := true) && ani.easing == old(ani.easing)
    {
      aniList := aniList - {ani};
      emitted := ani.TargetValues();
      ani.isFinished := true;
    }

    /** One update of one animator at wall-clock time `now`: the animator's new state and the
        callbacks are those of the state machine, and the animator leaves the registry exactly
        when the tick retires it. */
    method Update(ani: Animator, now: real) returns (t: Tick)
      requires ani.Valid()
      modifies this, ani
      ensures var o := Step(old(ani.Model()), old(ani.easing), now);
              ani.Model() == o.next && t == o.tick
      ensures ani.easing == old(ani.easing) && ani.Valid()
      ensures aniList == if t.retired then old(aniList) - {ani} else old(aniList)
      ensures nowTime == if old(ani.isDisposed || ani.isFinished) then old(nowTime) else now
    {
      ghost var a := ani.Model();
      if ani.isDisposed {
        DisposeIsSilent(a, ani.easing, now);
        Dispose(ani);
        t := Tick([], false, true);
        return;
      }
      if ani.isFinished {
        FinishSnapsToTargets(a, ani.easing, now);
        var emitted := Finish(ani);
        t := Tick(emitted, true, true);
        return;
      }
      nowTime := now;
      if !ani.isAnimating {
        PausedIsSilent(a, ani.easing, now);
        ani.startTime := nowTime - ani.covered * 1000.0;
        t := Tick([], false, false);
        return;
      }
      if ani.delay > 0.0 {
        DelayIsSilent(a, ani.easing, now);
        ani.delay := ani.delay - (nowTime - ani.startTime);
        ani.startTime := nowTime;
        t := Tick([], false, false);
        return;
      }
      ani.covered := nowTime - ani.startTime;
      if ani.covered >= ani.duration {
        if ani.yoyo {
          if ani.repeatCount <= 0 || ani.repeatCount > ani.counted {
            YoyoBoundaryReverses(a, ani.easing, now);
            var emitted := ani.Bounce(nowTime);
            t := Tick(emitted, false, false);
            return;
          }
        }
        if ani.counted < ani.repeatCount {
          RepeatBoundaryRestarts(a, ani.easing, now);
          var emitted := ani.RestartValues();
          ani.startTime := nowTime;
          ani.counted := ani.counted + 1;
          t := Tick(emitted, false, false);
          return;
        }
        BoundaryFinishes(a, ani.easing, now);
        var emitted := Finish(ani);
        t := Tick(emitted, true, true);
      } else {
        InProgressEases(a, ani.easing, now);
        var emitted := ani.EasedValues();
        t := Tick(emitted, false, false);
      }
    }

    /** One pass of the driver loop over a snapshot of the registry, in an unspecified order:
        every animator registered at the start is updated once, and exactly those whose tick
        retired them have left the registry. */
    method Pass(now: real) returns (ticks: map<Animator, Tick>)
      requires Valid()
      modifies this, aniList
      ensures ticks.Keys == old(aniList)
      ensures forall a :: a in ticks ==>
                var o := Step(old(a.Model()), old(a.easing), now);
                a.Model() == o.next && ticks[a] == o.tick && a.easing == old(a.easing)
      ensures forall a :: a in aniList <==> a in ticks && !ticks[a].retired
      ensures Valid()
    {
      var rest := aniList;
      ghost var snapshot := aniList;
      ghost var gone: set<Animator> := {};
      ticks := map[];
      while rest != {}
        invariant rest <= snapshot && gone <= snapshot - rest
        invariant ticks.Keys == snapshot - rest
        invariant aniList == snapshot - gone
        invariant forall a :: a in rest ==> unchanged(a) && a.Valid()
        invariant forall a :: a in ticks ==>
                    var o := Step(old(a.Model()), old(a.easing), now);
                    a.Model() == o.next && ticks[a] == o.tick && a.easing == old(a.easing)
        invariant forall a :: a in ticks ==> (a in gone <==> ticks[a].retired)
        decreases rest
      {
        var a :| a in rest;
        assert a.Model() == old(a.Model()) && a.easing == old(a.easing);
        var t := Update(a, now);
        ticks := ticks[a := t];
        rest := rest - {a};
        if t.retired {
          gone := gone + {a};
        }
      }
    }
  }
}
