/** The option bundle of an animation and its builder. */
module Options {

  datatype Maybe<T> = None | Some(value: T)

  /** Yoyo mode, number of repeats, and start delay in seconds. */
  datatype Option = Option(yoyo: bool, repeatCount: int, delay: real)

  /** The settings an animation has when no option bundle is given. */
  const Defaults := Option(false, 0, 0.0)

  /** A fluent builder: each setter changes one setting and hands back the same builder. */
  class OptionBuilder {
    var yoyo: bool
    var repeatCount: int
    var delay: real

    constructor ()
      ensures yoyo == Defaults.yoyo && repeatCount == Defaults.repeatCount && delay == Defaults.delay
    {
      yoyo := false;
      repeatCount := 0;
      delay := 0.0;
    }

    method SetYoyo(v: bool) returns (builder: OptionBuilder)
      modifies this
      ensures builder == this
      ensures yoyo == v && repeatCount == old(repeatCount) && delay == old(delay)
    {
      yoyo := v;
      builder := this;
    }

    method SetRepeatCount(v: int) returns (builder: OptionBuilder)
      modifies this
      ensures builder == this
      ensures repeatCount == v && yoyo == old(yoyo) && delay == old(delay)
    {
      repeatCount := v;
      builder := this;
    }

    method SetDelay(v: real) returns (builder: OptionBuilder)
      modifies this
      ensures builder == this
      ensures delay == v && yoyo == old(yoyo) && repeatCount == old(repeatCount)
    {
      delay := v;
      builder := this;
    }

    /** The bundle carries exactly the builder's current settings. */
    method Build() returns (o: Option)
      ensures o.yoyo == yoyo && o.repeatCount == repeatCount && o.delay == delay
    {
      o := Option(yoyo, repeatCount, delay);
    }
  }

  /** The yoyo flag, repeat count and delay that the factory stores for an optional bundle.
      A yoyo repeat is one full back-and-forth, that is two boundary crossings, so a positive
      yoyo repeat count is stored doubled. */
  function Applied(option: Maybe<Option>): (s: Option)
    ensures option.None? ==> s == Defaults
    ensures option.Some? ==> s.yoyo == option.value.yoyo && s.delay == option.value.delay
    ensures option.Some? && option.value.yoyo && option.value.repeatCount > 0 ==>
              s.repeatCount == 2 * option.value.repeatCount
    ensures option.Some? && !(option.value.yoyo && option.value.repeatCount > 0) ==>
              s.repeatCount == option.value.repeatCount
  {
    var given := if option.Some? then option.value else Defaults;
    if given.yoyo && given.repeatCount > 0 then given.(repeatCount := given.repeatCount * 2)
    else given
  }

  /** The stored count is positive exactly when the given one is, and a stored yoyo count
      is always an even number of crossings. */
  lemma AppliedCountSign(option: Maybe<Option>)
    ensures var s := Applied(option);
            (s.repeatCount > 0 <==> option.Some? && option.value.repeatCount > 0) &&
            (s.yoyo && s.repeatCount > 0 ==> s.repeatCount % 2 == 0)
  {
  }
}
