/** Relative times: "N seconds/minutes/hours ago" from the elapsed
    milliseconds, falling back to the calendar date after a day. The date
    itself is formatted by the caller. */
module Time {
  import opened Wrappers
  import opened Strings

  const AMinute := 60
  const AnHour := AMinute * 60
  const ADay := AnHour * 24

  /** `Math.round(x / d)`: halves round up, towards positive infinity. */
  function RoundDiv(x: int, d: int): (r: int)
    requires d > 0
  {
    (2 * x + d) / (2 * d)
  }

  datatype Unit = Second | Minute | Hour

  function UnitWord(u: Unit): string {
    match u
    case Second => "second"
    case Minute => "minute"
    case Hour => "hour"
  }

  /** The bucket `formatTime` picks, with its rounded count, or `None`
      once a day has (nearly) passed. */
  function Bucket(elapsedMs: int): Option<(int, Unit)> {
    var seconds := RoundDiv(elapsedMs, 1000);
    if seconds < AMinute then Some((seconds, Second))
    else
      var minutes := RoundDiv(seconds, AMinute);
      if minutes < 60 then Some((minutes, Minute))
      else
        var hours := RoundDiv(minutes, 60);
        if hours < 24 then Some((hours, Hour)) else None
  }

  /** "N unit ago", the plural "s" only for counts above one. */
  function Phrase(n: int, u: Unit): (p: string)
    ensures p != []
  {
    IntText(n) + " " + UnitWord(u) + (if n > 1 then "s" else "") + " ago"
  }

  /** `formatTime`, on the elapsed milliseconds. */
  function FormatTime(elapsedMs: int): Option<string> {
    match Bucket(elapsedMs)
    case None => None
    case Some((n, u)) => Some(Phrase(n, u))
  }

  /** `formatRelativeDate`, with the month/day text of the date given. */
  function FormatRelativeDate(elapsedMs: int, dateText: string): (r: string)
    ensures FormatTime(elapsedMs).None? ==> r == dateText
  {
    match FormatTime(elapsedMs)
    case Some(t) => t
    case None => dateText
  }

  /** The buckets in milliseconds: after rounding, seconds run to 59 499 ms,
      minutes to 3 569 499 ms and hours to 84 569 499 ms, with counts in
      range. */
  lemma BucketThresholds(elapsedMs: int)
    ensures var b := Bucket(elapsedMs);
            && (b.Some? && b.value.1 == Second <==> elapsedMs < 59_500)
            && (b.Some? && b.value.1 == Minute <==> 59_500 <= elapsedMs < 3_569_500)
            && (b.Some? && b.value.1 == Hour <==> 3_569_500 <= elapsedMs < 84_569_500)
            && (b.None? <==> 84_569_500 <= elapsedMs)
            && (b.Some? && b.value.1 == Second ==> b.value.0 < 60)
            && (b.Some? && b.value.1 != Second ==> 1 <= b.value.0 < 60)
            && (b.Some? && b.value.1 == Hour ==> b.value.0 < 24)
  {
    var seconds := RoundDiv(elapsedMs, 1000);
    assert seconds < 60 <==> elapsedMs < 59_500;
    if seconds >= 60 {
      var minutes := RoundDiv(seconds, 60);
      assert minutes >= 1;
      assert minutes < 60 <==> seconds < 3_570;
      assert seconds < 3_570 <==> elapsedMs < 3_569_500;
      if minutes >= 60 {
        var hours := RoundDiv(minutes, 60);
        assert hours >= 1;
        assert hours < 24 <==> minutes < 1_410;
        assert minutes < 1_410 <==> seconds < 84_570;
        assert seconds < 84_570 <==> elapsedMs < 84_569_500;
      }
    }
  }

  /** 3 570 seconds round to sixty minutes, which read as one hour. */
  lemma NearlyAnHour()
    ensures FormatTime(3_570_000) == Some("1 hour ago")
  {
    assert (2 * 3_570_000 + 1000) / 2000 == 3_570;
    assert (2 * 3_570 + 60) / 120 == 60;
    assert (2 * 60 + 60) / 120 == 1;
    assert Bucket(3_570_000) == Some((1, Hour));
    assert DigitChar(1) == '1';
    assert IntText(1) == "1";
    assert Phrase(1, Hour) == "1" + " " + "hour" + "" + " ago";
    assert "1" + " " + "hour" + "" + " ago" == "1 hour ago";
    assert FormatTime(3_570_000) == Some(Phrase(1, Hour));
  }

  /** Zero and one are singular, every larger count plural. */
  lemma PluralOnlyAboveOne(n: int, u: Unit)
    ensures var p := Phrase(n, u);
            var w := IntText(n) + " " + UnitWord(u);
            (n > 1 ==> p == w + "s ago") && (n <= 1 ==> p == w + " ago")
  {
  }

  /** The date is shown exactly when the relative phrase gives up. */
  lemma RelativeDateFallsBack(elapsedMs: int, dateText: string)
    ensures FormatRelativeDate(elapsedMs, dateText) == dateText <== 84_569_500 <= elapsedMs
    ensures elapsedMs < 84_569_500 ==> FormatRelativeDate(elapsedMs, dateText) == FormatTime(elapsedMs).value
  {
    BucketThresholds(elapsedMs);
  }
}
