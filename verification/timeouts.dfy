/**
 * The workspace timeout values and their conversion to and from duration strings,
 * as the enterprise user service performs it against the server configuration.
 */
module WorkspaceTimeouts {
  import opened Results

  /** WorkspaceTimeoutDuration: the four named timeouts a user can hold. */
  datatype WorkspaceTimeout = DefaultShort | DefaultLong | Extended | ExtendedAlt

  /** `config.workspaceDefaults`; `None` is a setting left out of the configuration. */
  datatype WorkspaceDefaults = WorkspaceDefaults(timeoutDefault: Option<string>, timeoutExtended: Option<string>)

  /** The duration of the short default, independent of configuration. */
  const ShortDuration: string := "10m"
  /** What `timeoutDefault || "5m"` falls back to. */
  const FallbackDefault: string := "5m"
  /** What `timeoutExtended || "180m"` falls back to. */
  const FallbackExtended: string := "180m"

  /**
   * JavaScript's `s || fallback` on an optional string: both an unset value and
   * the empty string are falsy and give way to the fallback.
   */
  function OrElse(s: Option<string>, fallback: string): (r: string)
    ensures r == fallback || (s == Some(r) && r != "")
    ensures s.Some? && s.value != "" ==> r == s.value
    ensures fallback != "" ==> r != ""
  {
    if s.Some? && s.value != "" then s.value else fallback
  }

  /** The duration the long default stands for under `d`. */
  function EffectiveDefault(d: WorkspaceDefaults): string {
    OrElse(d.timeoutDefault, FallbackDefault)
  }

  /** The duration both extended timeouts stand for under `d`. */
  function EffectiveExtended(d: WorkspaceDefaults): string {
    OrElse(d.timeoutExtended, FallbackExtended)
  }

  /** `workspaceTimeoutToDuration`. */
  function ToDuration(d: WorkspaceDefaults, t: WorkspaceTimeout): (r: string)
    ensures r != ""
    ensures t == DefaultShort ==> r == ShortDuration
    ensures t == DefaultLong ==> r == EffectiveDefault(d)
    ensures t == Extended || t == ExtendedAlt ==> r == EffectiveExtended(d)
  {
    match t
    case DefaultShort => ShortDuration
    case DefaultLong => OrElse(d.timeoutDefault, FallbackDefault)
    case Extended | ExtendedAlt => OrElse(d.timeoutExtended, FallbackExtended)
  }

  /**
   * `durationToWorkspaceTimeout`: a switch whose cases are tried in order, so the
   * first case that equals `s` wins and anything unmatched is the short default.
   */
  function FromDuration(d: WorkspaceDefaults, s: string): (r: WorkspaceTimeout)
    ensures r != Extended
    ensures r == DefaultLong <==> s != ShortDuration && s == EffectiveDefault(d)
    ensures r == ExtendedAlt <==>
              s != ShortDuration && s != EffectiveDefault(d) && s == EffectiveExtended(d)
    ensures r == DefaultShort <==>
              s == ShortDuration || (s != EffectiveDefault(d) && s != EffectiveExtended(d))
  {
    if s == ShortDuration then DefaultShort
    else if s == OrElse(d.timeoutDefault, FallbackDefault) then DefaultLong
    else if s == OrElse(d.timeoutExtended, FallbackExtended) then ExtendedAlt
    else DefaultShort
  }

  /** The short default lasts ten minutes whatever the configuration says. */
  lemma ShortIgnoresConfiguration(d1: WorkspaceDefaults, d2: WorkspaceDefaults)
    ensures ToDuration(d1, DefaultShort) == ToDuration(d2, DefaultShort) == "10m"
  {
  }

  /** The long default is the configured `timeoutDefault`, or five minutes when it is unset or empty. */
  lemma LongUsesConfiguredDefault(d: WorkspaceDefaults)
    ensures d.timeoutDefault.Some? && d.timeoutDefault.value != "" ==>
              ToDuration(d, DefaultLong) == d.timeoutDefault.value
    ensures d.timeoutDefault.None? || d.timeoutDefault.value == "" ==>
              ToDuration(d, DefaultLong) == "5m"
  {
  }

  /**
   * Both extended timeouts map to the same duration: the configured
   * `timeoutExtended`, or 180 minutes when it is unset or empty.
   */
  lemma ExtendedVariantsAgree(d: WorkspaceDefaults)
    ensures ToDuration(d, Extended) == ToDuration(d, ExtendedAlt)
    ensures d.timeoutExtended.Some? && d.timeoutExtended.value != "" ==>
              ToDuration(d, Extended) == d.timeoutExtended.value
    ensures d.timeoutExtended.None? || d.timeoutExtended.value == "" ==>
              ToDuration(d, Extended) == "180m"
  {
  }

  /**
   * Converting a timeout to its duration and back gives the timeout again,
   * except that EXTENDED comes back as EXTENDED_ALT, provided the durations
   * do not collide with an earlier case of the switch.
   */
  lemma TimeoutRoundTrip(d: WorkspaceDefaults, t: WorkspaceTimeout)
    ensures t == DefaultShort ==> FromDuration(d, ToDuration(d, t)) == DefaultShort
    ensures t == DefaultLong && EffectiveDefault(d) != ShortDuration ==>
              FromDuration(d, ToDuration(d, t)) == DefaultLong
    ensures (t == Extended || t == ExtendedAlt)
              && EffectiveExtended(d) != ShortDuration
              && EffectiveExtended(d) != EffectiveDefault(d) ==>
              FromDuration(d, ToDuration(d, t)) == ExtendedAlt
  {
  }

  /**
   * The converse of the round trip: when a configured duration collides with an
   * earlier case, the earlier case wins and the round trip changes the timeout.
   */
  lemma TimeoutRoundTripCollisions(d: WorkspaceDefaults)
    ensures EffectiveDefault(d) == ShortDuration ==>
              FromDuration(d, ToDuration(d, DefaultLong)) == DefaultShort
    ensures EffectiveExtended(d) == ShortDuration ==>
              FromDuration(d, ToDuration(d, Extended)) == DefaultShort
    ensures EffectiveExtended(d) != ShortDuration && EffectiveExtended(d) == EffectiveDefault(d) ==>
              FromDuration(d, ToDuration(d, Extended)) == DefaultLong
  {
  }

  /**
   * Every duration the conversion can produce converts back to itself: the
   * parse followed by the render is the identity on the render's image, and
   * any other string becomes the ten-minute default.
   */
  lemma DurationRoundTrip(d: WorkspaceDefaults, s: string)
    ensures (exists t :: ToDuration(d, t) == s) ==> ToDuration(d, FromDuration(d, s)) == s
    ensures (forall t :: ToDuration(d, t) != s) ==>
              FromDuration(d, s) == DefaultShort && ToDuration(d, FromDuration(d, s)) == ShortDuration
  {
    if exists t :: ToDuration(d, t) == s {
      var t :| ToDuration(d, t) == s;
    } else {
      assert ToDuration(d, DefaultLong) != s;
      assert ToDuration(d, ExtendedAlt) != s;
    }
  }
}
