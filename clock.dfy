/**
 * The clock display of scripts/music.js (`MusicPlayer.formatTime`): whole
 * seconds shown as minutes, a colon and two digits of seconds.
 */
module Clock {
  import opened Wrappers
  import opened Text

  /** `remainingSeconds.toString().padStart(2, '0')` for a number of seconds below 100. */
  function TwoDigits(k: nat): (r: string)
    requires k < 100
    ensures |r| == 2 && IsDigits(r) && DigitsValue(r) == k
  {
    DecimalValue(k);
    var d := Decimal(k);
    if k < 10 then
      assert PadStart2(d) == ['0'] + d;
      assert (['0'] + d)[..1] == "0";
      PadStart2(d)
    else
      PadStart2(d)
  }

  /**
   * `formatTime` on whole seconds (`None` stands for NaN): the minutes in
   * decimal, a colon, and the seconds within the minute as exactly two digits.
   */
  function FormatTime(seconds: Option<nat>): (r: string)
    ensures seconds.None? ==> r == "0:00"
    ensures seconds.Some? ==>
      && |r| >= 4 && r[|r| - 3] == ':'
      && IsDigits(r[..|r| - 3]) && DigitsValue(r[..|r| - 3]) == seconds.value / 60
      && IsDigits(r[|r| - 2..]) && DigitsValue(r[|r| - 2..]) == seconds.value % 60
      && (|r| > 4 ==> r[0] != '0')
  {
    match seconds
    case None => "0:00"
    case Some(s) =>
      var minutes, secs := Decimal(s / 60), TwoDigits(s % 60);
      DecimalValue(s / 60);
      Joined(minutes, secs);
      minutes + [':'] + secs
  }

  lemma Joined(minutes: string, secs: string)
    requires |secs| == 2
    ensures var r := minutes + [':'] + secs;
      |r| == |minutes| + 3 && r[|r| - 3] == ':' && r[..|r| - 3] == minutes && r[|r| - 2..] == secs
  {
  }

  /** Reads an `m:ss` string back into seconds; anything else is rejected. */
  function ParseClock(str: string): Option<nat>
  {
    if |str| < 4 || str[|str| - 3] != ':' then None
    else
      var minutes, secs := str[..|str| - 3], str[|str| - 2..];
      if IsDigits(minutes) && IsDigits(secs) && DigitsValue(secs) < 60
      then Some(DigitsValue(minutes) * 60 + DigitsValue(secs))
      else None
  }

  /** Reading back what `formatTime` writes gives the number of seconds, so distinct times never share a display. */
  lemma FormatTimeRoundTrip(s: nat)
    ensures ParseClock(FormatTime(Some(s))) == Some(s)
  {
    var minutes, secs := Decimal(s / 60), TwoDigits(s % 60);
    DecimalValue(s / 60);
    Joined(minutes, secs);
    ParseClockReads(minutes, secs, s);
  }

  /** Minutes and two digits of seconds joined by a colon read back as their total in seconds. */
  lemma ParseClockReads(minutes: string, secs: string, total: nat)
    requires 1 <= |minutes| && IsDigits(minutes) && |secs| == 2 && IsDigits(secs) && DigitsValue(secs) < 60
    requires total == DigitsValue(minutes) * 60 + DigitsValue(secs)
    ensures ParseClock(minutes + [':'] + secs) == Some(total)
  {
    Joined(minutes, secs);
  }

  /** NaN is displayed as zero seconds are. */
  lemma FormatTimeNaN()
    ensures FormatTime(None) == FormatTime(Some(0))
  {
    var d, t := Decimal(0), TwoDigits(0);
    assert d == ['0'];
    assert t == ['0', '0'];
    assert d + [':'] + t == "0:00";
  }
}
