/**
 * The track length shown by the `addsong` command: milliseconds rendered
 * as `M:SS` (whole minutes, then whole seconds zero-padded to two digits).
 * Python's `//` and `%` with a positive divisor round toward minus
 * infinity, which is what Dafny's `/` and `%` do for a positive divisor,
 * so the rendering below is exact for negative inputs as well.
 */
module Duration {

  import opened Wrappers
  import opened Text

  const MillisPerMinute := 60000
  const MillisPerSecond := 1000

  /** `duration_ms // 60000` */
  function Minutes(ms: int): int
  {
    ms / MillisPerMinute
  }

  /** `(duration_ms % 60000) // 1000` */
  function Seconds(ms: int): int
  {
    (ms % MillisPerMinute) / MillisPerSecond
  }

  /** The two fields bracket `ms` to within one second, and the seconds field is a clock second. */
  lemma SplitBounds(ms: int)
    ensures 0 <= Seconds(ms) < 60
    ensures Minutes(ms) * MillisPerMinute + Seconds(ms) * MillisPerSecond <= ms
    ensures ms < Minutes(ms) * MillisPerMinute + Seconds(ms) * MillisPerSecond + MillisPerSecond
  {
  }

  /** The displayed fields are exactly the whole seconds of `ms`, split into minutes and seconds. */
  lemma FieldsAreWholeSeconds(ms: int)
    ensures Minutes(ms) == (ms / MillisPerSecond) / 60
    ensures Seconds(ms) == (ms / MillisPerSecond) % 60
  {
  }

  /** `f"{duration_ms // 60000}:{(duration_ms % 60000) // 1000:02d}"` */
  function FormatDuration(ms: int): (s: string)
    ensures |s| >= 4 && s[|s| - 3] == ':'
  {
    IntToString(Minutes(ms)) + ":" + Pad2(Seconds(ms))
  }

  /** Reads an `M:SS` string back into its minutes and seconds fields. */
  function ParseDuration(s: string): Option<(int, nat)>
  {
    if |s| >= 4 && s[|s| - 3] == ':' && AllDigits(s[|s| - 2..]) then
      match ParseInt(s[..|s| - 3])
      case Some(m) => Some((m, ParseNat(s[|s| - 2..])))
      case None => None
    else None
  }

  lemma ParseFormatDuration(ms: int)
    ensures ParseDuration(FormatDuration(ms)) == Some((Minutes(ms), Seconds(ms)))
  {
    var s := FormatDuration(ms);
    var m := IntToString(Minutes(ms));
    assert s[..|s| - 3] == m;
    assert s[|s| - 2..] == Pad2(Seconds(ms));
    ParseIntToString(Minutes(ms));
  }

  /** Two durations display alike exactly when they agree in whole seconds. */
  lemma SameDisplayIffSameSecond(a: int, b: int)
    ensures FormatDuration(a) == FormatDuration(b) <==> a / MillisPerSecond == b / MillisPerSecond
  {
    FieldsAreWholeSeconds(a);
    FieldsAreWholeSeconds(b);
    if FormatDuration(a) == FormatDuration(b) {
      ParseFormatDuration(a);
      ParseFormatDuration(b);
      var qa, qb := a / MillisPerSecond, b / MillisPerSecond;
      assert qa == 60 * (qa / 60) + qa % 60;
      assert qb == 60 * (qb / 60) + qb % 60;
    }
  }
}
