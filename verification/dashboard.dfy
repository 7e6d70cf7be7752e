/**
 * The plan dashboard's arithmetic: formatting a number of seconds as
 * minutes and seconds, and the runtime shown in the header, which adds up the
 * script's time budgets.
 */
module Dashboard {
  import opened Wrappers
  import opened Decimal
  import opened PlanTypes
  import opened Request
  import opened Fallback

  function Zeros(k: nat): (z: string)
    ensures |z| == k
    ensures forall i :: 0 <= i < k ==> z[i] == '0'
  {
    seq(k, i => '0')
  }

  /** `s.padStart(2, "0")`: zeros are added in front up to width two; nothing is ever cut. */
  function PadStart2(s: string): (r: string)
    ensures |r| == Max(2, |s|)
    ensures r[|r| - |s|..] == s
    ensures forall i :: 0 <= i < |r| - |s| ==> r[i] == '0'
  {
    if |s| >= 2 then s else Zeros(2 - |s|) + s
  }

  /**
   * JavaScript's `%`: `a` less a multiple of `b`, smaller than `b` in size and
   * never of the opposite sign to `a` (division truncated toward zero).
   */
  function JsRemainder(a: int, b: int): (r: int)
    requires b > 0
    ensures -b < r < b
    ensures (a - r) % b == 0
    ensures a >= 0 ==> r >= 0
    ensures a < 0 ==> r <= 0
  {
    var r := if a >= 0 then a % b else -((-a) % b);
    DifferenceIsMultiple(a, b, r);
    r
  }

  /** Taking off the floor remainder of `a` or of `-a` leaves a multiple of `b`. */
  lemma DifferenceIsMultiple(a: int, b: int, r: int)
    requires b > 0
    requires r == if a >= 0 then a % b else -((-a) % b)
    ensures (a - r) % b == 0
  {
    var q := if a >= 0 then a / b else -((-a) / b);
    assert a - r == b * q;
    MultipleHasNoRemainder(b, q);
  }

  /** A multiple of `b` leaves no remainder: any other quotient would be off by at least `b`. */
  lemma MultipleHasNoRemainder(b: int, q: int)
    requires b > 0
    ensures (b * q) % b == 0
  {
    var n := b * q;
    var k := q - n / b;
    assert n == b * (n / b) + n % b;
    assert b * k == n % b by {
      assert b * q - b * (n / b) == b * (q - n / b);
    }
    if k >= 1 {
      AtLeastOnce(b, k);
    } else if k <= -1 {
      AtLeastOnce(b, -k);
    }
  }

  lemma {:induction false} AtLeastOnce(b: int, k: int)
    requires b > 0 && k >= 1
    ensures b * k >= b
    decreases k
  {
    assert b * k == b * (k - 1) + b;
    if k > 1 {
      AtLeastOnce(b, k - 1);
    }
  }

  /**
   * The minutes and seconds fields: `Math.floor(seconds / 60)` and
   * `seconds % 60`. For a non-negative count they split it into whole
   * minutes and the 0 to 59 seconds left over.
   */
  function ClockFields(seconds: int): (f: (int, int))
    ensures seconds >= 0 ==> f.0 >= 0 && 0 <= f.1 < 60 && 60 * f.0 + f.1 == seconds
  {
    (seconds / 60, JsRemainder(seconds, 60))
  }

  /** `secondsToTimestamp`. */
  function SecondsToTimestamp(seconds: int): string {
    var (minutes, remaining) := ClockFields(seconds);
    PadStart2(IntToString(minutes)) + ":" + PadStart2(IntToString(remaining))
  }

  /** Splits at the first colon. */
  function SplitAtColon(t: string): (r: Option<(string, string)>)
    ensures r.None? <==> ':' !in t
    ensures r.Some? ==> t == r.value.0 + ":" + r.value.1 && ':' !in r.value.0
    decreases |t|
  {
    if t == [] then None
    else if t[0] == ':' then Some(([], t[1..]))
    else match SplitAtColon(t[1..])
      case None => None
      case Some((a, b)) => Some(([t[0]] + a, b))
  }

  /** Reads an `MM:SS` timestamp back into seconds; each field is a non-empty run of digits. */
  function ReadTimestamp(t: string): Option<int> {
    match SplitAtColon(t)
    case None => None
    case Some((m, s)) =>
      if m != [] && s != [] && AllDigits(m) && AllDigits(s) then Some(60 * ValueOf(m) + ValueOf(s)) else None
  }

  /** A padded field of a non-negative number: digits only, with the number's value. */
  lemma PaddedField(n: nat)
    ensures var f := PadStart2(NatToString(n));
      && AllDigits(f) && |f| >= 2
      && ValueOf(f) == n
      && (|f| == 2 <==> n < 100)
  {
    var s := NatToString(n);
    ValueOfNatToString(n);
    if |s| < 2 {
      assert PadStart2(s) == "0" + s;
      LeadingZeroKeepsValue(s);
    }
  }

  /** For a non-negative count both fields are plain digit strings, zero-padded to width two. */
  lemma TimestampFields(seconds: int)
    requires seconds >= 0
    ensures SecondsToTimestamp(seconds)
      == PadStart2(NatToString(seconds / 60)) + ":" + PadStart2(NatToString(seconds % 60))
  {
  }

  /** A padded field has no colon in it. */
  lemma NoColonInDigits(f: string)
    requires AllDigits(f)
    ensures ':' !in f
  {
  }

  /** A minutes field of at least two digits, a colon, and a two-digit seconds field. */
  predicate ClockShaped(t: string) {
    && |t| >= 5
    && t[|t| - 3] == ':'
    && AllDigits(t[..|t| - 3])
    && AllDigits(t[|t| - 2..])
  }

  /**
   * For a non-negative count the timestamp is clock-shaped. Below 6000 (under
   * a hundred minutes) that is the five-character `MM:SS`; from 6000 on the
   * minutes field has three or more digits and the text is longer, never cut.
   */
  lemma TimestampShape(seconds: int)
    requires seconds >= 0
    ensures ClockShaped(SecondsToTimestamp(seconds))
    ensures |SecondsToTimestamp(seconds)| == 5 <==> seconds < 6000
  {
    var minutes, remaining := seconds / 60, seconds % 60;
    var m, s := PadStart2(NatToString(minutes)), PadStart2(NatToString(remaining));
    TimestampFields(seconds);
    PaddedField(minutes);
    PaddedField(remaining);
    assert minutes < 100 <==> seconds < 6000;
    JoinedShape(m, s, SecondsToTimestamp(seconds), seconds < 6000);
  }

  lemma JoinedShape(m: string, s: string, t: string, short: bool)
    requires t == m + ":" + s
    requires AllDigits(m) && AllDigits(s) && |m| >= 2 && |s| == 2
    requires |m| == 2 <==> short
    ensures ClockShaped(t)
    ensures |t| == 5 <==> short
  {
    assert t[..|t| - 3] == m && t[|t| - 2..] == s;
  }

  /** Reading a timestamp of a non-negative count back gives the count: 60 times the minutes plus the seconds. */
  lemma TimestampRoundTrip(seconds: int)
    requires seconds >= 0
    ensures ReadTimestamp(SecondsToTimestamp(seconds)) == Some(seconds)
  {
    TimestampFields(seconds);
    ReadFields(seconds / 60, seconds % 60, seconds);
  }

  lemma ReadFields(minutes: nat, remaining: nat, seconds: nat)
    requires remaining < 60 && 60 * minutes + remaining == seconds
    ensures ReadTimestamp(PadStart2(NatToString(minutes)) + ":" + PadStart2(NatToString(remaining)))
      == Some(seconds)
  {
    var m, s := PadStart2(NatToString(minutes)), PadStart2(NatToString(remaining));
    PaddedField(minutes);
    PaddedField(remaining);
    NoColonInDigits(m);
    SplitAtColonOfJoin(m, s);
    ReadJoined(m, s, minutes, remaining, seconds);
  }

  lemma ReadJoined(m: string, s: string, minutes: nat, remaining: nat, seconds: nat)
    requires m != [] && s != [] && AllDigits(m) && AllDigits(s)
    requires ValueOf(m) == minutes && ValueOf(s) == remaining && 60 * minutes + remaining == seconds
    requires SplitAtColon(m + ":" + s) == Some((m, s))
    ensures ReadTimestamp(m + ":" + s) == Some(seconds)
  {
  }

  lemma {:induction false} SplitAtColonOfJoin(a: string, b: string)
    requires ':' !in a
    ensures SplitAtColon(a + ":" + b) == Some((a, b))
    decreases |a|
  {
    if a != [] {
      assert (a + ":" + b)[1..] == a[1..] + ":" + b;
      SplitAtColonOfJoin(a[1..], b);
      assert [a[0]] + a[1..] == a;
    } else {
      assert a + ":" + b == [':'] + b;
    }
  }

  /**
   * `plan.script.reduce((acc, segment) => acc + segment.approximateTime, acc)`,
   * folding from the left: it adds the same time budgets as summing them up.
   */
  function Reduce(acc: nat, script: seq<ScriptSegment>): (total: nat)
    ensures total == acc + ScriptTime(script)
    decreases |script|
  {
    if script == [] then acc else Reduce(acc + script[0].approximateTime, script[1..])
  }

  /** `totalTime`: the runtime the header shows is the sum of the script's time budgets. */
  function TotalTime(plan: AIPlan): (total: nat)
    ensures total == ScriptTime(plan.script)
  {
    Reduce(0, plan.script)
  }

  /** The runtime line of the header: a clock-shaped label that reads back as the runtime. */
  function RuntimeLabel(plan: AIPlan): (text: string)
    ensures ClockShaped(text)
    ensures |text| == 5 <==> TotalTime(plan) < 6000
    ensures ReadTimestamp(text) == Some(TotalTime(plan))
  {
    TimestampShape(TotalTime(plan));
    TimestampRoundTrip(TotalTime(plan));
    SecondsToTimestamp(TotalTime(plan))
  }

  /**
   * For a fallback plan the runtime is the sum of the outline's beats; for a
   * valid duration it stays within two minutes, so the label is a five-character
   * `MM:SS` that reads back as that sum.
   */
  lemma FallbackRuntime(g: GenerationPayload)
    requires WellFormed(g)
    ensures TotalTime(FallbackPlan(g)) == OutlineTime(FallbackPlan(g).outline) <= 120
    ensures |RuntimeLabel(FallbackPlan(g))| == 5
    ensures ReadTimestamp(RuntimeLabel(FallbackPlan(g))) == Some(TotalTime(FallbackPlan(g)))
  {
    if g.durationSeconds <= 18 {
      ShortDurationsOverrun(g);
    } else {
      BudgetWithinDuration(g);
    }
    TimestampShape(TotalTime(FallbackPlan(g)));
    TimestampRoundTrip(TotalTime(FallbackPlan(g)));
  }
}
