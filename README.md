# ValueAnimator in Dafny

A model of the core of ValueAnimator, a small Swift library that animates named numeric
channels ("props") from start values to end values over a duration. Each animation has an easing
curve, an optional yoyo mode, a repeat count and a start delay. A process-wide registry holds
the live animations. A driver loop updates each registered animation once per frame. An update
hands the new channel values to a change callback and, when the animation completes, calls an
end callback and drops the animation from the registry.

The model follows the library's single class `ValueAnimator`:

- `options.dfy` (module `Options`) holds the option bundle `Option` and its fluent
  `OptionBuilder` class. `Applied` gives the settings the factory stores: the bundle or its
  defaults, with a positive yoyo repeat count doubled.
- `channels.dfy` (module `Channels`) holds `Assign`. It is the map the factory's loop leaves
  behind when it writes `initials[p] = from[i]` and `changes[p] = to[i] - from[i]` for each name
  in order, so a repeated name keeps its last values.
- `state_machine.dfy` (module `StateMachine`) describes one animation as a value (`Animation`).
  `Step` is one update of one animation, as a function. It returns the next state and a `Tick`:
  the calls a set change callback would receive, in order; whether a set end callback would
  run; and whether the animation leaves the registry. `Flip` is the yoyo reversal pass over the channels. `Targets`,
  `Restarts` and `Eased` are the values the other branches emit.
- `step_laws.dfy` (module `StepLaws`) has one lemma per branch of the update. It also holds the
  lemmas about the pause rebase.
- `runs.dfy` (module `Runs`) drives one animation through a list of tick times (`Run`). It
  proves what whole runs do: unbounded yoyos never end, finite yoyos and repeats end where they
  should, and delays and pauses stay silent.
- `value_animator.dfy` (module `ValueAnimator`) has two classes.
  - `Animator` holds the fields of one animation, updated in place. Its loops over the channels
    are proved against `Flip`, `Restarts`, `Eased` and `Targets`.
  - `Registry` holds the library's static state: the registered set and the last wall-clock
    time read. It has the factories, the control operations, `Update` and one pass of the
    driver loop (`Pass`).
  - Every state change is proved to be the one `Step` describes, so the lemmas about `Step` and
    `Run` carry over to the objects.

Some consequences of the code that are easy to miss:

- A yoyo repeat count of 1 is stored as 2 crossings (ValueAnimator.swift:166-168). One channel
  from 0 to 10 with that option emits 10, then 0, then runs a third, forward pass and finishes
  at 10, with one end call. `Runs.YoyoOnceScenario` and `Runs.FreshYoyoEndsAtTargets` state
  this.
- `disposeAll` only empties the registry. It sets no flag on the animations it drops.
- The factory never resumes the animation it builds, so nothing moves until `resume` is
  called (`ValueAnimator.BuiltStartsPaused`).
- A non-yoyo animation whose repeat count is not positive finishes at its first boundary.

## Model

| member | source | states |
|---|---|---|
| Options.OptionBuilder.constructor | ValueAnimator/Core/ValueAnimator.swift:16-21 | a new builder holds the defaults: no yoyo, no repeats, no delay |
| Options.OptionBuilder.SetYoyo | ValueAnimator/Core/ValueAnimator.swift:23-26 | sets the yoyo flag, leaves the other settings alone, and returns the same builder |
| Options.OptionBuilder.SetRepeatCount | ValueAnimator/Core/ValueAnimator.swift:28-31 | sets the repeat count, leaves the other settings alone, and returns the same builder |
| Options.OptionBuilder.SetDelay | ValueAnimator/Core/ValueAnimator.swift:33-36 | sets the delay, leaves the other settings alone, and returns the same builder |
| Options.OptionBuilder.Build | ValueAnimator/Core/ValueAnimator.swift:38-40 | the bundle carries exactly the builder's current settings |
| Options.Applied | ValueAnimator/Core/ValueAnimator.swift:161-168 | without a bundle the settings are the defaults; with one, yoyo and delay are copied; the repeat count is doubled exactly when yoyo is on and the count is positive, and copied otherwise |
| Options.AppliedCountSign | ValueAnimator/Core/ValueAnimator.swift:161-168 | the stored repeat count is positive exactly when a bundle with a positive count was given, and a stored yoyo count is even |
| Channels.AssignKeys | ValueAnimator/Core/ValueAnimator.swift:154-157 | the factory's maps have exactly the channel names as keys |
| Channels.AssignLastWins | ValueAnimator/Core/ValueAnimator.swift:154-157 | a name written more than once keeps the value of its last occurrence |
| Channels.DeltasAt | ValueAnimator/Core/ValueAnimator.swift:156 | the change stored for index i is `to[i] - from[i]` |
| Channels.ChannelsFromArrays | ValueAnimator/Core/ValueAnimator.swift:154-157 | at the last index naming a channel, its initial value is `from[i]` and `initial + change == to[i]` |
| StateMachine.FlipKeys | ValueAnimator/Core/ValueAnimator.swift:234-242 | when every channel is defined, the reversal pass keeps the keys of both maps and emits one value per channel |
| StateMachine.FlipParity | ValueAnimator/Core/ValueAnimator.swift:234-242 | after a reversal pass, a channel named an odd number of times has moved to `initial + change` with its change negated; one named an even number of times is back where it was |
| StateMachine.FlipUntouched | ValueAnimator/Core/ValueAnimator.swift:234-242 | a reversal pass leaves the entries of channels it does not name alone |
| StateMachine.FlipEmitsTarget | ValueAnimator/Core/ValueAnimator.swift:234-242 | at the first position naming a channel, the pass emits that channel's `initial + change` |
| StateMachine.FlipDistinct | ValueAnimator/Core/ValueAnimator.swift:234-242 | with distinct names, the pass emits every target in order, moves every initial value to its target and negates every change |
| StateMachine.FlipTwiceRestores | ValueAnimator/Core/ValueAnimator.swift:234-242 | two reversal passes restore both maps: a yoyo back-and-forth returns to the start |
| StateMachine.Reversed | ValueAnimator/Core/ValueAnimator.swift:231-246 | the channel maps after k reversals keep the keys of the original maps |
| StateMachine.ReversedParity | ValueAnimator/Core/ValueAnimator.swift:231-246 | an even number of reversals restores the maps; an odd number leaves them as one reversal does |
| StateMachine.StepWith | ValueAnimator/Core/ValueAnimator.swift:209-266 | an update keeps the invariant (channels defined, crossings never past a positive repeat count) and the setup fields; it counts at most one crossing; the end callback runs only when the animation leaves the registry, and it leaves exactly when its finished flag is set |
| StateMachine.Step | ValueAnimator/Core/ValueAnimator.swift:209-266 | the same guarantees for the update as the library performs it, with the literal pause rebase |
| StepLaws.DisposeIsSilent | ValueAnimator/Core/ValueAnimator.swift:210-213 | a disposed animation leaves the registry with no change call and no end call; only its finished flag changes |
| StepLaws.FinishSnapsToTargets | ValueAnimator/Core/ValueAnimator.swift:214-217 | a finish request emits `initial + change` once per channel in order, calls the end callback and leaves the registry, with the state unchanged |
| StepLaws.PausedIsSilent | ValueAnimator/Core/ValueAnimator.swift:219-222 | a paused animation emits nothing and stays registered; only its start time moves |
| StepLaws.DelayIsSilent | ValueAnimator/Core/ValueAnimator.swift:223-227 | a pending delay emits nothing, shrinks by `now - startTime` and sets the start time to now |
| StepLaws.YoyoBoundaryReverses | ValueAnimator/Core/ValueAnimator.swift:231-246 | at a yoyo boundary with crossings left, the update emits the reversal pass, stores the reversed maps, restarts the clock, counts one crossing and stays registered |
| StepLaws.RepeatBoundaryRestarts | ValueAnimator/Core/ValueAnimator.swift:248-257 | at a plain-repeat boundary, the update re-emits every initial value, keeps the maps, restarts the clock and counts one crossing |
| StepLaws.BoundaryFinishes | ValueAnimator/Core/ValueAnimator.swift:231-259 | at a boundary with no crossings left (an exhausted yoyo falls through), the update snaps every channel to `initial + change`, calls the end callback and leaves the registry |
| StepLaws.InProgressEases | ValueAnimator/Core/ValueAnimator.swift:260-265 | before the boundary, the update emits the easing curve's value once per channel in order; only the covered time changes |
| StepLaws.RetiresExactly | ValueAnimator/Core/ValueAnimator.swift:209-266 | an update drops the animation exactly when it was disposed, was asked to finish, or reached a boundary with no crossings left; the end callback runs in the last two cases only |
| StepLaws.PauseThenResumeAsWritten | ValueAnimator/Core/ValueAnimator.swift:219-229 | after a paused tick and a resume, the covered time is a thousand times the covered time before the pause plus the time between the two ticks |
| StepLaws.ResumeSkipsToEnd | ValueAnimator/Core/ValueAnimator.swift:219-231 | half of a one-second animation paused and resumed one frame later jumps to 500.02 s covered and finishes at once |
| StepLaws.PauseThenResumeIntended | ValueAnimator/Core/ValueAnimator.swift:219-229 | with the corrected rebase, resuming continues from the covered time reached before the pause, and the animation stays registered while that is below the duration |
| Runs.Run | ValueAnimator/Core/ValueAnimator.swift:193-196 | the driver loop's successive updates of one animation: at most one tick per time, only the last tick can drop it, and the invariant holds throughout |
| Runs.UnboundedYoyoNeverRetires | ValueAnimator/Core/ValueAnimator.swift:232-246 | a yoyo with a repeat count that is not positive, unless disposed or finished, is never dropped and never calls the end callback, however many ticks pass |
| Runs.UnboundedYoyoReverses | ValueAnimator/Core/ValueAnimator.swift:232-246 | at its k-th boundary an unbounded yoyo emits the reversal pass of its maps as they are after k reversals, and counts every crossing |
| Runs.UnboundedYoyoAlternates | ValueAnimator/Core/ValueAnimator.swift:232-246 | with distinct channels, an unbounded yoyo emits `initial + change` at even-numbered boundaries and `initial` at odd-numbered ones |
| Runs.RepeatsThenFinishes | ValueAnimator/Core/ValueAnimator.swift:248-259 | a non-yoyo animation with n crossings left re-emits its initial values at the next n boundaries and finishes at the one after, snapping to `initial + change` with its maps unchanged |
| Runs.FiniteYoyoReverses | ValueAnimator/Core/ValueAnimator.swift:232-246 | a finite yoyo emits at each remaining crossing k the reversal pass of its maps after k reversals |
| Runs.FiniteYoyoThenFinishes | ValueAnimator/Core/ValueAnimator.swift:231-259 | after its remaining crossings a finite yoyo finishes at the next boundary, snapping to the targets of its reversed maps, with the crossing count at the repeat count |
| Runs.FreshYoyoEndsAtTargets | ValueAnimator/Core/ValueAnimator.swift:166-168 | because the yoyo count is stored doubled, a fresh finite yoyo ends at the original `initial + change` |
| Runs.DelayHoldsBack | ValueAnimator/Core/ValueAnimator.swift:223-227 | while the delay is pending, every tick is silent; the delay shrinks by the time since the start time and the start time follows the last tick |
| Runs.PausedRunIsSilent | ValueAnimator/Core/ValueAnimator.swift:219-222 | while paused, every tick is silent and only the start time changes |
| Runs.YoyoOnceScenario | ValueAnimator/Core/ValueAnimator.swift:231-259 | one channel from 0 to 10, yoyo with one repeat, ticked at each boundary, emits 10, then 0, then finishes at 10 |
| ValueAnimator.Built | ValueAnimator/Core/ValueAnimator.swift:152-170 | the animation the factory builds keeps the invariant: every channel has an initial value and a change |
| ValueAnimator.BuiltFromArrays | ValueAnimator/Core/ValueAnimator.swift:154-168 | each channel starts at `from[i]` and heads for `to[i]`; without a bundle there is no yoyo, repeat or delay; nothing is counted and every flag is off |
| ValueAnimator.BuiltStartsPaused | ValueAnimator/Core/ValueAnimator.swift:152-188 | the factory never resumes what it builds, so until resumed an update emits nothing and keeps the maps, count and delay |
| ValueAnimator.BuiltOne | ValueAnimator/Core/ValueAnimator.swift:129-130 | the one-channel factory without options builds the one-entry maps `from` and `to - from` |
| ValueAnimator.Animator.Made | ValueAnimator/Core/ValueAnimator.swift:152-170 | the field initialisers (lines 47-66) followed by the factory's field writes, including the loop over the channel names, leave the animator in the state `Built` describes, with the chosen easing curve |
| ValueAnimator.Animator.Resume | ValueAnimator/Core/ValueAnimator.swift:84-86 | sets the animating flag and nothing else |
| ValueAnimator.Animator.Pause | ValueAnimator/Core/ValueAnimator.swift:88-90 | clears the animating flag and nothing else |
| ValueAnimator.Animator.Finish | ValueAnimator/Core/ValueAnimator.swift:92-94 | sets the finished flag and nothing else |
| ValueAnimator.Animator.Dispose | ValueAnimator/Core/ValueAnimator.swift:96-98 | sets the disposed flag and nothing else |
| ValueAnimator.Animator.ReverseChannels | ValueAnimator/Core/ValueAnimator.swift:234-242 | the in-place reversal loop emits and leaves behind exactly the reversal pass `Flip` |
| ValueAnimator.Animator.Bounce | ValueAnimator/Core/ValueAnimator.swift:234-245 | a yoyo crossing stores the reversed maps, restarts the clock at now and counts one crossing; nothing else changes |
| ValueAnimator.Animator.RestartValues | ValueAnimator/Core/ValueAnimator.swift:249-253 | the plain-repeat loop emits each channel's initial value in order |
| ValueAnimator.Animator.EasedValues | ValueAnimator/Core/ValueAnimator.swift:262-264 | the in-progress loop emits each channel's eased value in order |
| ValueAnimator.Animator.TargetValues | ValueAnimator/Core/ValueAnimator.swift:272-277 | the finishing loop emits each channel's `initial + change` in order |
| ValueAnimator.Registry.constructor | ValueAnimator/Core/ValueAnimator.swift:109-111 | the registry starts empty, with the last read time at zero |
| ValueAnimator.Registry.FinishAll | ValueAnimator/Core/ValueAnimator.swift:114-118 | every registered animator has its finished flag set and nothing else changed |
| ValueAnimator.Registry.DisposeAll | ValueAnimator/Core/ValueAnimator.swift:120-122 | the registry is emptied; the animators are not touched |
| ValueAnimator.Registry.Animate | ValueAnimator/Core/ValueAnimator.swift:144-189 | the factory registers a fresh animator in the state `Built` describes, with the given easing or the linear one, and keeps every registered animator valid |
| ValueAnimator.Registry.AnimateOne | ValueAnimator/Core/ValueAnimator.swift:133-142 | the one-channel factory is the array factory on one-element arrays |
| ValueAnimator.Registry.Of | ValueAnimator/Core/ValueAnimator.swift:124-131 | the shorthand registers one channel from `from` to `to` with the sine ease-out curve and no options |
| ValueAnimator.Registry.Dispose | ValueAnimator/Core/ValueAnimator.swift:283-286 | the animator leaves the registry and is marked finished, with no callback |
| ValueAnimator.Registry.Finish | ValueAnimator/Core/ValueAnimator.swift:270-280 | the animator leaves the registry, every channel is snapped to `initial + change` in order, and it is marked finished |
| ValueAnimator.Registry.Update | ValueAnimator/Core/ValueAnimator.swift:209-266 | the animator's new state and the callbacks are those of `Step`; it stays valid; it leaves the registry exactly when the tick drops it; the clock is read unless it was disposed or finished |
| ValueAnimator.Registry.Pass | ValueAnimator/Core/ValueAnimator.swift:193-196 | one pass over a snapshot of the registry, in any order, updates every registered animator once as `Step` says; exactly the animators whose tick dropped them have left |

## Left out

- The driver thread: starting the renderer thread, sleeping between passes, and exiting when the
  main thread ends (`onProgress`). The model has one pass (`Pass`), and `Runs.Run` gives one
  animation's successive updates.
- The wall clock: `Date().timeIntervalSince1970` is a `now` parameter of the factories and of
  `Update`.
- The easing curves `EaseSine.easeOut()` and `EaseLinear.easeNone()` are not part of this model.
  An easing curve is an opaque function, and the caller passes in the ones the library would
  pick. Nothing is claimed about the values an easing curve returns.
- Floating point: times and values are reals, so rounding and `Double` overflow are not
  modelled.
- Integer overflow: Swift's `Int` traps on overflow. `repeatCount *= 2` (line 167) traps for a
  yoyo count above `Int.max / 2`, and `counted += 1` (lines 244 and 255) traps at `Int.max`.
  The model's counts are unbounded integers, so `Options.Applied`, `ValueAnimator.Animator.Made`,
  `StateMachine.Step` and `ValueAnimator.Animator.Bounce` double and count without that trap.
- The change and end callbacks are not stored and called. Both are optional and unset by
  default, and `of` and the one-channel `animate` never pass an end callback. Each update
  returns a `Tick` that lists the calls a set change callback would receive, in order, and says
  whether a set end callback would be called.
- Identity and hashing (`ObjectIdentifier`, `==`, `hashValue`) are object identity in Dafny.
  Debug printing and the frame-rate setter only affect logging and tick cadence.
- ValueAnimator.Registry.Pass: the registry is a Swift `Set`, so the order of updates within a
  pass is unspecified. The model picks animators in any order and claims nothing about order
  between animators. Registrations made by another thread during a pass are not modelled.
- ValueAnimator.Registry.Animate: requires `from` and `to` to be at least as long as the names.
  Swift traps on the out-of-range index otherwise, so the model has no error path for it.
- ValueAnimator.Animator.Made: the factory's loop writes into the animator's maps one entry at
  a time. The animator is not yet visible to anyone then, so the model builds the maps in locals
  and assigns them once after the loop; the other fields are written in the library's order.
  The intermediate states of the maps are not modelled.
- StateMachine.FlipEmitsTarget: stated only for the first position naming a channel. A repeated
  name is reversed again at each later position, which `StateMachine.FlipParity` covers.

## Findings

| source | as written | input that shows it | evidently intended | confidence | as-written member | corrected member |
|---|---|---|---|---|---|---|
| ValueAnimator/Core/ValueAnimator.swift:220 | a paused tick sets `startTime = nowTime - covered * 1000.0`, while `covered` is in seconds everywhere else | a one-second animation with 0.5 s covered, paused and ticked at t = 10, then resumed and ticked at t = 10.02: covered becomes 500.02 s and the animation finishes at once | `startTime = nowTime - covered`, so that resuming continues at 0.52 s | not executed | StepLaws.ResumeSkipsToEnd | StepLaws.PauseThenResumeIntended |

`StateMachine.StepWith` takes the pause rebase as a parameter: `StateMachine.PauseRebase` is the
library's, `StateMachine.IntendedPauseRebase` the corrected one. `StateMachine.Step`, `Runs` and
the classes use the library's literal rebase, since that is the library's behaviour.
`StateMachine.StepWith` with `StateMachine.IntendedPauseRebase` is the corrected update.
