/** `formatTime` of the floating player: a clock label "m:ss" for a
    playback position or duration in seconds. */
module FloatingPlayer {
  import opened Wrappers
  import opened Decimal
  import Text

  /** The seconds the audio element reports: not a number, infinite (a
      stream), or a whole non-negative count. */
  datatype Seconds = NaN | Infinity | Whole(n: nat)

  /** The seconds field: a leading "0" below ten. */
  function TwoDigits(secs: nat): (r: string)
    requires secs < 60
    ensures |r| == 2 && AllDigits(r) && ParseNat(r) == secs
  {
    NatToStringLength(secs);
    ParseNatToString(secs);
    var r := (if secs < 10 then "0" else "") + NatToString(secs);
    assert secs < 10 ==> r[..1] == "0";
    r
  }

  function FormatTime(seconds: Seconds): (r: string)
    ensures seconds.NaN? || seconds.Infinity? ==> r == "0:00"
  {
    match seconds
    case NaN => "0:00"
    case Infinity => "0:00"
    case Whole(s) => NatToString(s / 60) + ":" + TwoDigits(s % 60)
  }

  /** Reads a "m:ss" label back as a number of seconds. */
  function ParseClock(t: string): Option<nat> {
    var m := Text.BeforeFirst(t, ':');
    if |m| < |t| && AllDigits(m) && AllDigits(t[|m| + 1..]) then
      Some(ParseNat(m) * 60 + ParseNat(t[|m| + 1..]))
    else None
  }

  /** Every label of a whole number of seconds has a two-digit seconds field
      below 60 after its only colon. */
  lemma {:induction false} SecondsField(s: nat)
    ensures var t := FormatTime(Whole(s));
      var m := Text.BeforeFirst(t, ':');
      |m| + 3 == |t| && t[|m|] == ':' && AllDigits(t[|m| + 1..]) && ParseNat(t[|m| + 1..]) < 60
  {
    var minutes := NatToString(s / 60);
    var t := FormatTime(Whole(s));
    assert ':' !in minutes by {
      assert forall i :: 0 <= i < |minutes| ==> IsDigit(minutes[i]);
    }
    Text.BeforeFirstSplit(minutes, TwoDigits(s % 60), ':');
    assert t[|minutes| + 1..] == TwoDigits(s % 60);
  }

  /** Reading the label back gives the number of seconds formatted. */
  lemma {:induction false} ClockRoundTrip(s: nat)
    ensures ParseClock(FormatTime(Whole(s))) == Some(s)
  {
    var minutes := NatToString(s / 60);
    var t := FormatTime(Whole(s));
    assert ':' !in minutes by {
      assert forall i :: 0 <= i < |minutes| ==> IsDigit(minutes[i]);
    }
    Text.BeforeFirstSplit(minutes, TwoDigits(s % 60), ':');
    assert t[|minutes| + 1..] == TwoDigits(s % 60);
    ParseNatToString(s / 60);
  }

  /** The label for NaN or Infinity reads back as zero seconds. */
  lemma UnknownReadsAsZero()
    ensures ParseClock(FormatTime(NaN)) == Some(0)
  {
    Text.BeforeFirstSplit("0", "00", ':');
    assert "0" + [':'] + "00" == "0:00";
    assert "0:00"[2..] == "00";
  }
}
