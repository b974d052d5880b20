/**
 * The per-turn countdown. Once a second the timer writes the remaining time
 * as "m:ss" and counts one second down; when nothing is left it writes
 * "Time's up!" and starts again from a full minute. The real-time
 * scheduling around the tick is not part of this module.
 */
module Clock {
  import opened Pieces
  import opened Numerals

  /** Seconds allowed per turn. */
  const Allowance: int := 60

  const TimesUp: string := "Time's up!"

  /** The countdown's state: the seconds still remaining (the source's `Timerem`). */
  datatype Countdown = Countdown(remaining: int)

  /** What a tick puts on the label: the remaining seconds, or the time-out notice. */
  datatype Display = Showing(seconds: nat) | Expired

  /** What one tick displays and the state it leaves. */
  datatype Tick = Tick(shown: Display, after: Countdown)

  /** `reset`: a full minute again, whatever was left. */
  function Reset(c: Countdown): (r: Countdown)
    ensures r.remaining == Allowance
  {
    Countdown(Allowance)
  }

  /** Two digits of seconds: a leading zero below ten. */
  function PaddedSeconds(sec: nat): string {
    if sec >= 10 then NatText(sec) else "0" + NatText(sec)
  }

  /** The label for `seconds` remaining: whole minutes, a colon, and two digits of seconds. */
  function ClockText(seconds: nat): string {
    NatText(seconds / 60) + ":" + PaddedSeconds(seconds % 60)
  }

  /** The label text of a display. */
  function Text(d: Display): string {
    match d
    case Showing(seconds) => ClockText(seconds)
    case Expired => TimesUp
  }

  function Texts(ds: seq<Display>): (r: seq<string>)
    ensures |r| == |ds|
    ensures forall i :: 0 <= i < |ds| ==> r[i] == Text(ds[i])
  {
    if ds == [] then [] else [Text(ds[0])] + Texts(ds[1..])
  }

  /** The tick handler: show and count down while time remains, otherwise report and restart. */
  function Step(c: Countdown): (r: Tick)
    ensures c.remaining > 0 ==> r.shown == Showing(c.remaining) && r.after.remaining == c.remaining - 1
    ensures c.remaining <= 0 ==> r.shown == Expired && r.after.remaining == Allowance
  {
    if c.remaining > 0 then Tick(Showing(c.remaining), Countdown(c.remaining - 1))
    else Tick(Expired, Reset(c))
  }

  /** What `n` consecutive ticks display, in order, and the state they leave. */
  datatype Trace = Trace(shown: seq<Display>, after: Countdown)

  function Run(c: Countdown, n: nat): (r: Trace)
    ensures |r.shown| == n
    decreases n
  {
    if n == 0 then Trace([], c)
    else
      var t := Step(c);
      var rest := Run(t.after, n - 1);
      Trace([t.shown] + rest.shown, rest.after)
  }

  /* ---------------------------------------------------------------------
   * Reading a label back.
   * ------------------------------------------------------------------- */

  /** The seconds an "m:ss" label stands for; None for any other text. */
  function ParseClock(s: string): (r: Option<nat>)
  {
    var colon := FirstColon(s, 0);
    if colon >= |s| then None
    else
      var secs := s[colon + 1..];
      match (ParseNat(s[..colon]), ParseNat(secs))
      case (Some(m), Some(sec)) => if |secs| == 2 && sec < 60 then Some(60 * m + sec) else None
      case _ => None
  }

  /** The index of the first ':' in `s` at or after `i`, or |s|. */
  function FirstColon(s: string, i: nat): (k: nat)
    requires i <= |s|
    ensures i <= k <= |s|
    ensures forall j :: i <= j < k ==> s[j] != ':'
    ensures k < |s| ==> s[k] == ':'
    decreases |s| - i
  {
    if i == |s| || s[i] == ':' then i else FirstColon(s, i + 1)
  }

  lemma PaddedSecondsReads(sec: nat)
    requires sec < 60
    ensures |PaddedSeconds(sec)| == 2 && ParseNat(PaddedSeconds(sec)) == Some(sec)
  {
    NatTextParses(sec);
    if sec < 10 {
      var t := "0" + NatText(sec);
      assert t[..1] == "0" && t[1..] == NatText(sec);
      assert DigitsValue(t) == sec;
    } else {
      assert sec / 10 < 10;
    }
  }

  /** A label made of a digit string, a colon and a reading of two digits parses to its seconds. */
  lemma ParseClockParts(m: string, t: string, minutes: nat, sec: nat)
    requires ParseNat(m) == Some(minutes)
    requires |t| == 2 && ParseNat(t) == Some(sec) && sec < 60
    ensures ParseClock(m + ([':'] + t)) == Some(60 * minutes + sec)
  {
    var s := m + ([':'] + t);
    ColonAfterDigits(m, [':'] + t, 0);
    assert s[..|m|] == m;
    assert s[|m| + 1..] == t;
  }

  /** The label determines the remaining seconds: reading it back gives them. */
  lemma ClockTextRoundTrip(seconds: nat)
    ensures ParseClock(ClockText(seconds)) == Some(seconds)
  {
    var m := NatText(seconds / 60);
    var t := PaddedSeconds(seconds % 60);
    assert ClockText(seconds) == m + ([':'] + t);
    PaddedSecondsReads(seconds % 60);
    NatTextParses(seconds / 60);
    ParseClockParts(m, t, seconds / 60, seconds % 60);
  }

  lemma {:induction false} ColonAfterDigits(a: string, b: string, i: nat)
    requires AllDigits(a) && i <= |a|
    requires |b| > 0 && b[0] == ':'
    ensures FirstColon(a + b, i) == |a|
    decreases |a| - i
  {
    if i < |a| {
      assert (a + b)[i] == a[i];
      ColonAfterDigits(a, b, i + 1);
    }
  }

  /** Different remaining times show different labels. */
  lemma ClockTextInjective(m: nat, n: nat)
    ensures ClockText(m) == ClockText(n) <==> m == n
  {
    ClockTextRoundTrip(m);
    ClockTextRoundTrip(n);
  }

  /* ---------------------------------------------------------------------
   * A whole countdown.
   * ------------------------------------------------------------------- */

  /** A run of n + 1 ticks is one tick followed by a run of n from where it left the clock. */
  lemma RunUnfolds(c: Countdown, n: nat)
    ensures var r := Run(c, n + 1);
      var rest := Run(Step(c).after, n);
      r.shown[0] == Step(c).shown && r.shown[1..] == rest.shown && r.after == rest.after
  {
    var rest := Run(Step(c).after, n);
    assert ([Step(c).shown] + rest.shown)[1..] == rest.shown;
  }

  /** Ticking n times and then m more times is ticking n + m times. */
  lemma {:induction false} RunSplits(c: Countdown, n: nat, m: nat)
    ensures var first := Run(c, n);
      var second := Run(first.after, m);
      Run(c, n + m) == Trace(first.shown + second.shown, second.after)
    decreases n
  {
    if n > 0 {
      RunSplits(Step(c).after, n - 1, m);
      var first := Run(c, n);
      var rest := Run(Step(c).after, n - 1);
      var second := Run(first.after, m);
      assert first.shown == [Step(c).shown] + rest.shown;
      assert Run(c, n + m).shown == [Step(c).shown] + Run(Step(c).after, n - 1 + m).shown;
      assert [Step(c).shown] + (rest.shown + second.shown) == first.shown + second.shown;
    } else {
      assert Run(c, 0).shown + Run(c, m).shown == Run(c, m).shown;
    }
  }

  /** While time remains, the i-th tick from `s` seconds shows s - i. */
  lemma {:induction false} CountsDown(s: nat, n: nat)
    requires n <= s
    ensures var r := Run(Countdown(s), n);
      (forall i :: 0 <= i < n ==> r.shown[i] == Showing(s - i)) && r.after == Countdown(s - n)
  {
    if n > 0 {
      CountsDown(s - 1, n - 1);
      RunUnfolds(Countdown(s), n - 1);
      var r := Run(Countdown(s), n);
      forall i | 0 < i < n
        ensures r.shown[i] == Showing(s - i)
      {
        assert r.shown[i] == r.shown[1..][i - 1];
      }
    }
  }

  /**
   * From `s` seconds the clock shows s, s - 1, ..., 1 in turn, then reports
   * that time is up and is back at a full minute.
   */
  lemma CountsDownToTimesUp(s: nat)
    ensures var r := Run(Countdown(s), s + 1);
      (forall i :: 0 <= i < s ==> r.shown[i] == Showing(s - i))
      && r.shown[s] == Expired && r.after == Countdown(Allowance)
  {
    CountsDown(s, s);
    RunSplits(Countdown(s), s, 1);
    var r := Run(Countdown(s), s + 1);
    var first := Run(Countdown(s), s);
    assert r.shown == first.shown + Run(Countdown(0), 1).shown;
    assert r.shown[s] == Run(Countdown(0), 1).shown[0];
  }

  /* ---------------------------------------------------------------------
   * The runs of the timer tests.
   * ------------------------------------------------------------------- */

  /** Resetting with one second left restores the full minute. */
  lemma ResetFromOneSecond()
    ensures Reset(Countdown(1)) == Countdown(60)
  {
  }

  /** One tick of a full clock shows "1:00" and leaves 59 seconds. */
  lemma FirstTick()
    ensures Text(Step(Countdown(60)).shown) == "1:00" && Step(Countdown(60)).after == Countdown(59)
  {
  }

  /** Five ticks of a full clock show "1:00" down to "0:56" and leave 55 seconds. */
  lemma FiveTicks()
    ensures Run(Countdown(60), 5) == Trace([Showing(60), Showing(59), Showing(58), Showing(57), Showing(56)], Countdown(55))
  {
    CountsDown(60, 5);
  }

  /** What those five ticks write on the label. */
  lemma FiveTicksLabels()
    ensures Texts([Showing(60), Showing(59), Showing(58), Showing(57), Showing(56)]) == ["1:00", "0:59", "0:58", "0:57", "0:56"]
  {
    MinuteLabels();
  }

  lemma MinuteLabels()
    ensures ClockText(60) == "1:00" && ClockText(59) == "0:59" && ClockText(58) == "0:58"
    ensures ClockText(57) == "0:57" && ClockText(56) == "0:56"
  {
  }

  /** Six ticks from five seconds: "0:05" down to "0:01", then "Time's up!" and a full minute again. */
  lemma RunsOut()
    ensures Run(Countdown(5), 6) == Trace([Showing(5), Showing(4), Showing(3), Showing(2), Showing(1), Expired], Countdown(60))
  {
    CountsDownToTimesUp(5);
  }

  /** What those six ticks write on the label. */
  lemma RunsOutLabels()
    ensures Texts([Showing(5), Showing(4), Showing(3), Showing(2), Showing(1), Expired]) == ["0:05", "0:04", "0:03", "0:02", "0:01", "Time's up!"]
  {
    LastSecondsLabels();
  }

  lemma LastSecondsLabels()
    ensures ClockText(5) == "0:05" && ClockText(4) == "0:04" && ClockText(3) == "0:03"
    ensures ClockText(2) == "0:02" && ClockText(1) == "0:01"
  {
  }
}
