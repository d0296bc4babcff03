/** The view model of the circular time slider: two knob angles on a 24-hour dial and
    the values derived from them (duration, arc fraction, clock and duration texts),
    plus the split-and-parse step that reads an "HH:MM" text back. */
module SliderViewModel {
  import opened Optional
  import opened Decimal
  import opened Dial

  /** Geometry and behaviour constants, fixed when the view model is built. */
  datatype Config = Config(radius: real, knobRadius: real, minDurationTime: real, countSteps: int)
  {
    function Diameter(): real {
      radius * 2.0
    }

    function KnobDiameter(): real {
      knobRadius * 2.0
    }
  }

  /** The configuration every view model is created with: 24 hours in 10-minute steps. */
  const DEFAULT_CONFIG: Config := Config(130.0, 20.0, 1.0, 24 * 60 / 10)

  /** The default geometry: a 260-point ring, 40-point knobs and 144 tick steps,
      each of which covers ten minutes of the day. */
  lemma DefaultConfigGeometry()
    ensures DEFAULT_CONFIG.Diameter() == 2.0 * DEFAULT_CONFIG.radius == 260.0
    ensures DEFAULT_CONFIG.KnobDiameter() == 2.0 * DEFAULT_CONFIG.knobRadius == 40.0
    ensures DEFAULT_CONFIG.countSteps == 144
    ensures MapRotationToTime(360.0 / DEFAULT_CONFIG.countSteps as real) * 60.0 == 10.0
  {
  }

  // ---------------------------------------------------------------------------
  // Angles to hours

  /** Degrees on the dial to hours of the day: a full turn is 24 hours. */
  function MapRotationToTime(degrees: real): (hours: real)
    ensures hours * 15.0 == degrees
    ensures OnDial(degrees) ==> 0.0 <= hours < 24.0
  {
    (24.0 / 360.0) * degrees
  }

  lemma MapRotationToTimeExamples()
    ensures MapRotationToTime(0.0) == 0.0
    ensures MapRotationToTime(90.0) == 6.0
    ensures MapRotationToTime(300.0) == 20.0
  {
  }

  /** Hours from the start time to the end time; an end earlier in the day than the
      start is taken to be on the next day. */
  function TotalDuration(startDegrees: real, endDegrees: real): (d: real)
    ensures var diff := MapRotationToTime(endDegrees) - MapRotationToTime(startDegrees);
            d == diff || d == diff + 24.0
    ensures OnDial(startDegrees) && OnDial(endDegrees) ==> 0.0 <= d < 24.0
    ensures OnDial(startDegrees) && OnDial(endDegrees) ==> (d == 0.0 <==> startDegrees == endDegrees)
  {
    var start := MapRotationToTime(startDegrees);
    var end := MapRotationToTime(endDegrees);
    var nextDayEnd := if start > end then end + 24.0 else end;
    nextDayEnd - start
  }

  /** Share of the ring covered by the highlighted arc from the start knob clockwise
      to the end knob. */
  function ConnectorLength(startDegrees: real, endDegrees: real): (f: real)
    ensures f * 360.0 == endDegrees - startDegrees || f * 360.0 == endDegrees - startDegrees + 360.0
    ensures OnDial(startDegrees) && OnDial(endDegrees) ==> 0.0 <= f < 1.0
    ensures OnDial(startDegrees) && OnDial(endDegrees) ==> (f == 0.0 <==> startDegrees == endDegrees)
  {
    if startDegrees > endDegrees then
      (360.0 - startDegrees + endDegrees) / 360.0
    else
      (endDegrees - startDegrees) / 360.0
  }

  /** The duration and the arc are one quantity in two units: the arc is the share
      of the 24-hour day the duration covers. */
  lemma DurationIsArcOfDay(startDegrees: real, endDegrees: real)
    ensures TotalDuration(startDegrees, endDegrees) == 24.0 * ConnectorLength(startDegrees, endDegrees)
  {
  }

  /** On the dial, the arc is the clockwise angle from start to end. */
  lemma ConnectorIsClockwiseAngle(startDegrees: real, endDegrees: real)
    requires OnDial(startDegrees) && OnDial(endDegrees)
    ensures ConnectorLength(startDegrees, endDegrees) * 360.0 == Wrap360(endDegrees - startDegrees)
  {
    var c := ConnectorLength(startDegrees, endDegrees) * 360.0;
    var k := if c == endDegrees - startDegrees then 0 else 1;
    assert c == endDegrees - startDegrees + 360.0 * k as real;
    Wrap360Turns(endDegrees - startDegrees, k);
    assert SameDirection(c, Wrap360(c));
    SameDirectionOnDial(c, Wrap360(c));
  }

  /** Turning both knobs by the same angle keeps the arc and the duration. */
  lemma ShiftKeepsArcAndDuration(startDegrees: real, endDegrees: real, delta: real)
    ensures ConnectorLength(startDegrees + delta, endDegrees + delta) == ConnectorLength(startDegrees, endDegrees)
    ensures TotalDuration(startDegrees + delta, endDegrees + delta) == TotalDuration(startDegrees, endDegrees)
  {
  }

  // ---------------------------------------------------------------------------
  // Hours and minutes shown

  /** Swift's `Int(Double)`: truncation toward zero. */
  function Trunc(x: real): (n: int)
    ensures x >= 0.0 ==> n >= 0 && n as real <= x < n as real + 1.0
    ensures x < 0.0 ==> n <= 0 && n as real - 1.0 < x <= n as real
  {
    if x >= 0.0 then x.Floor else -((-x).Floor)
  }

  /** The largest multiple of 5 not above `m`. */
  function FloorToFive(m: int): (r: int)
    ensures r % 5 == 0 && r <= m < r + 5
  {
    m - m % 5
  }

  /** Whole minutes past the whole hour of an hour value `t`. */
  function MinuteOfHour(t: real): (m: int)
    ensures t >= 0.0 ==> 0 <= m < 60
    ensures t >= 0.0 ==> (Trunc(t) * 60 + m) as real <= t * 60.0 < (Trunc(t) * 60 + m + 1) as real
  {
    Trunc((t - Trunc(t) as real) * 60.0)
  }

  /** Steps `minutes` down one at a time until it is a multiple of 5. Swift's `%`
      truncates, Dafny's does not, but both are zero on exactly the multiples of 5. */
  method RoundDownToFive(minutes: int) returns (rounded: int)
    ensures rounded == FloorToFive(minutes)
  {
    rounded := minutes;
    while rounded % 5 != 0
      invariant rounded <= minutes
      invariant minutes - rounded + rounded % 5 == minutes % 5
      decreases rounded % 5
    {
      rounded := rounded - 1;
    }
  }

  /** The time shown for an hour value is that time rounded down to 5 minutes. */
  lemma ShownTimeRoundsDown(t: real)
    requires t >= 0.0
    ensures var h, m := Trunc(t), FloorToFive(MinuteOfHour(t));
            0 <= m <= 55 && m % 5 == 0 &&
            (h * 60 + m) as real <= t * 60.0 < (h * 60 + m + 5) as real
  {
    var h, raw := Trunc(t), MinuteOfHour(t);
    var m := FloorToFive(raw);
    assert (h * 60 + raw + 1) as real <= (h * 60 + m + 5) as real;
  }

  /** Hour field of the clock text for an angle. */
  function ClockHours(rotation: real): int {
    Trunc(MapRotationToTime(rotation))
  }

  /** Minute field of the clock text for an angle. */
  function ClockMinutes(rotation: real): int {
    FloorToFive(MinuteOfHour(MapRotationToTime(rotation)))
  }

  /** Two-digit field: a "0" in front of anything below 10. */
  function Pad2(n: int): string {
    if n < 10 then "0" + IntToString(n) else IntToString(n)
  }

  /** "HH:MM". */
  function ClockText(hours: int, minutes: int): string {
    Pad2(hours) + ":" + Pad2(minutes)
  }

  /** "H hr M min", or "M min" when there is no whole hour. */
  function DurationText(duration: real): string {
    var hours := Trunc(duration);
    var minutes := FloorToFive(MinuteOfHour(duration));
    if hours > 0 then IntToString(hours) + " hr " + IntToString(minutes) + " min"
    else IntToString(minutes) + " min"
  }

  lemma Pad2Field(n: int)
    requires 0 <= n <= INT_MAX
    ensures Pad2(n) != [] && AllDigits(Pad2(n)) && ':' !in Pad2(n)
    ensures ParseInt(Pad2(n)) == Some(n)
    ensures n <= 99 ==> |Pad2(n)| == 2 && DigitsValue(Pad2(n)) == n
  {
    var s := Pad2(n);
    if n < 10 {
      assert s == ['0', DigitChar(n)];
      assert s[..1] == "0" && DigitsValue("0") == 0;
      assert DigitsValue(s) == n;
    } else {
      NatToStringValue(n);
      if n <= 99 {
        assert NatToString(n) == NatToString(n / 10) + [DigitChar(n % 10)];
      }
    }
  }

  /** For an angle on the dial the clock text is exactly five characters "HH:MM":
      hours 00..23, minutes a multiple of 5 in 00..55, and the time it shows is the
      angle's time of day rounded down to 5 minutes (one degree is 4 minutes). */
  lemma ClockTextOnDial(rotation: real)
    requires OnDial(rotation)
    ensures var h, m, s := ClockHours(rotation), ClockMinutes(rotation), ClockText(ClockHours(rotation), ClockMinutes(rotation));
            0 <= h <= 23 && 0 <= m <= 55 && m % 5 == 0 &&
            (h * 60 + m) as real <= rotation * 4.0 < (h * 60 + m + 5) as real &&
            |s| == 5 && s[2] == ':' &&
            AllDigits(s[..2]) && DigitsValue(s[..2]) == h &&
            AllDigits(s[3..]) && DigitsValue(s[3..]) == m
  {
    var h, m := ClockHours(rotation), ClockMinutes(rotation);
    ShownTimeRoundsDown(MapRotationToTime(rotation));
    Pad2Field(h);
    Pad2Field(m);
    var s := ClockText(h, m);
    assert s[..2] == Pad2(h);
    assert s[3..] == Pad2(m);
  }

  lemma ClockTextExamples()
    ensures ClockText(ClockHours(215.5), ClockMinutes(215.5)) == "14:20"
    ensures ClockText(ClockHours(224.75), ClockMinutes(224.75)) == "14:55"
  {
    assert ClockHours(215.5) == 14 && MinuteOfHour(MapRotationToTime(215.5)) == 22;
    assert ClockHours(224.75) == 14 && MinuteOfHour(MapRotationToTime(224.75)) == 59;
    assert IntToString(14) == "14" && IntToString(20) == "20" && IntToString(55) == "55";
  }

  /** The default 00:00 to 06:00 selection, and an overnight 20:00 to 06:00 one. */
  lemma DurationTextExamples()
    ensures DurationText(TotalDuration(0.0, 90.0)) == "6 hr 0 min"
    ensures DurationText(TotalDuration(300.0, 90.0)) == "10 hr 0 min"
  {
    assert TotalDuration(0.0, 90.0) == 6.0 && TotalDuration(300.0, 90.0) == 10.0;
    assert Trunc(6.0) == 6 && Trunc(10.0) == 10 && MinuteOfHour(6.0) == 0 && MinuteOfHour(10.0) == 0;
    assert IntToString(10) == "10";
  }

  /** For a duration on the dial the text names the whole hours (only when there is
      at least one) and the minutes rounded down to 5. */
  lemma DurationTextShape(startDegrees: real, endDegrees: real)
    requires OnDial(startDegrees) && OnDial(endDegrees)
    ensures var d := TotalDuration(startDegrees, endDegrees);
            var h, m := Trunc(d), FloorToFive(MinuteOfHour(d));
            0 <= h <= 23 && 0 <= m <= 55 && m % 5 == 0 &&
            (h * 60 + m) as real <= d * 60.0 < (h * 60 + m + 5) as real &&
            DurationText(d) == (if h == 0 then IntToString(m) + " min"
                                else IntToString(h) + " hr " + IntToString(m) + " min")
  {
    ShownTimeRoundsDown(TotalDuration(startDegrees, endDegrees));
  }

  // ---------------------------------------------------------------------------
  // Reading "HH:MM" back

  /** Index of the first ':' in `s`, or `|s|` when there is none. */
  function FirstColon(s: string): (i: nat)
    ensures i <= |s| && (i < |s| ==> s[i] == ':')
    ensures forall j :: 0 <= j < i ==> s[j] != ':'
  {
    if s == [] || s[0] == ':' then 0 else 1 + FirstColon(s[1..])
  }

  /** Pieces that `Split` can return: non-empty and free of ':'. */
  predicate SplitPieces(ps: seq<string>) {
    forall i :: 0 <= i < |ps| ==> ps[i] != [] && ':' !in ps[i]
  }

  /** Swift's `split(separator: ":")`: the pieces between colons, empty pieces dropped. */
  function Split(s: string): (parts: seq<string>)
    ensures SplitPieces(parts)
    ensures ':' !in s ==> parts == (if s == [] then [] else [s])
    decreases |s|
  {
    var i := FirstColon(s);
    var head := if i == 0 then [] else [s[..i]];
    assert i == |s| ==> s[..i] == s;
    if i == |s| then head else head + Split(s[i + 1..])
  }

  /** The pieces in order with one ':' between neighbours. */
  function Join(ps: seq<string>): string
    decreases |ps|
  {
    if |ps| == 0 then "" else if |ps| == 1 then ps[0] else ps[0] + ":" + Join(ps[1..])
  }

  /** Pieces none of which holds a ':'; they may be empty. */
  predicate ColonFree(ps: seq<string>) {
    forall i :: 0 <= i < |ps| ==> ':' !in ps[i]
  }

  /** The non-empty pieces of `ps`, in order. */
  function NonEmpty(ps: seq<string>): (r: seq<string>)
    ensures |r| <= |ps|
    ensures forall i :: 0 <= i < |r| ==> r[i] != []
    ensures forall i :: 0 <= i < |r| ==> r[i] in ps
    ensures (forall i :: 0 <= i < |ps| ==> ps[i] != []) ==> r == ps
    decreases |ps|
  {
    if ps == [] then []
    else if ps[0] == [] then NonEmpty(ps[1..])
    else [ps[0]] + NonEmpty(ps[1..])
  }

  /** `Split` gives back, in order, the non-empty pieces a text was joined from: the
      empty segments between neighbouring colons, or before the first or after the
      last, are dropped. Every text is the join of its colon-free segments, so this
      fixes `Split` on every input. */
  lemma {:induction false} SplitJoinAll(ps: seq<string>)
    requires ColonFree(ps)
    ensures Split(Join(ps)) == NonEmpty(ps)
    decreases |ps|
  {
    if |ps| == 1 {
      assert ps[1..] == [];
    } else if |ps| >= 2 {
      var a, rest := ps[0], Join(ps[1..]);
      var s := a + ":" + rest;
      assert forall j :: 0 <= j < |a| ==> s[j] == a[j];
      assert s[|a|] == ':';
      assert FirstColon(s) == |a|;
      assert s[..|a|] == a && s[|a| + 1..] == rest;
      SplitJoinAll(ps[1..]);
    }
  }

  /** Without empty pieces, `Split` gives back exactly the pieces a text was joined from. */
  lemma SplitJoin(ps: seq<string>)
    requires SplitPieces(ps)
    ensures Split(Join(ps)) == ps
  {
    SplitJoinAll(ps);
  }

  /** An empty segment between two colons is dropped: "12::30" reads as "12:30". */
  lemma SplitDropsInnerEmpty()
    ensures Split("12::30") == ["12", "30"]
  {
    var ps := ["12", "", "30"];
    assert ps[1..] == ["", "30"] && ps[1..][1..] == ["30"];
    assert Join(ps) == "12::30";
    assert NonEmpty(ps[1..]) == NonEmpty(["30"]) == ["30"];
    SplitJoinAll(ps);
  }

  /** Empty segments before the first colon and after the last are dropped too. */
  lemma SplitDropsOuterEmpty()
    ensures Split(":12:30:") == ["12", "30"]
  {
    var ps := ["", "12", "30", ""];
    assert ps[1..] == ["12", "30", ""] && ps[1..][1..] == ["30", ""] && ps[1..][1..][1..] == [""];
    assert Join(ps) == ":12:30:";
    assert NonEmpty([""]) == [];
    assert NonEmpty(ps[1..][1..]) == ["30"];
    SplitJoinAll(ps);
  }

  /** Colons alone give no piece at all. */
  lemma SplitColonsOnly()
    ensures Split("::") == []
  {
    var ps := ["", "", ""];
    assert ps[1..] == ["", ""] && ps[1..][1..] == [""];
    assert Join(ps) == "::";
    assert NonEmpty([""]) == [];
    SplitJoinAll(ps);
  }

  lemma SplitPair(a: string, b: string)
    requires a != [] && ':' !in a && b != [] && ':' !in b
    ensures Split(a + ":" + b) == [a, b]
  {
    assert Join([a, b]) == a + ":" + b by {
      assert [a, b][1..] == [b];
    }
    SplitJoin([a, b]);
  }

  /** Hour and minute read from a time text. */
  datatype HourMinute = HourMinute(hour: int, minute: int)

  /** The parsing step of `Date.updateDateWithTime`: exactly two pieces around ':',
      each an `Int`; anything else is nil. */
  function TimeComponents(timeString: string): (r: Option<HourMinute>)
    ensures r.Some? ==> ':' in timeString
  {
    var parts := Split(timeString);
    if |parts| != 2 then None
    else
      match (ParseInt(parts[0]), ParseInt(parts[1]))
      case (Some(hour), Some(minute)) => Some(HourMinute(hour, minute))
      case _ => None
  }

  /** On a text joined from colon-free pieces the parser succeeds exactly when there
      are two non-empty pieces and both read as an `Int`, and then returns those
      values; empty pieces are skipped. */
  lemma TimeComponentsOfJoin(ps: seq<string>)
    requires ColonFree(ps)
    ensures var q := NonEmpty(ps);
            TimeComponents(Join(ps))
            == if |q| == 2 && ParseInt(q[0]).Some? && ParseInt(q[1]).Some?
               then Some(HourMinute(ParseInt(q[0]).value, ParseInt(q[1]).value))
               else None
  {
    SplitJoinAll(ps);
  }

  lemma ParseTwelveAndThirty()
    ensures ParseInt("12") == Some(12) && ParseInt("30") == Some(30)
  {
    assert "12"[..1] == "1" && "30"[..1] == "3" && "1"[..0] == [] && "3"[..0] == [];
    assert AllDigits("12") && DigitsValue("12") == 12;
    assert AllDigits("30") && DigitsValue("30") == 30;
  }

  /** "12::30" reads as 12:30. */
  lemma TimeComponentsInnerEmpty()
    ensures TimeComponents("12::30") == Some(HourMinute(12, 30))
  {
    SplitDropsInnerEmpty();
    ParseTwelveAndThirty();
    var parts := Split("12::30");
    assert |parts| == 2 && parts[0] == "12" && parts[1] == "30";
  }

  /** "::" is nil: it has no piece at all. */
  lemma TimeComponentsColonsOnly()
    ensures TimeComponents("::") == None
  {
    SplitColonsOnly();
  }

  /** Three pieces or one piece are nil. */
  lemma TimeComponentsRejectsPieceCount()
    ensures TimeComponents("1:2:3") == None
    ensures TimeComponents("12") == None
  {
    assert Join(["1", "2", "3"]) == "1:2:3" by {
      assert ["1", "2", "3"][1..] == ["2", "3"];
      assert ["2", "3"][1..] == ["3"];
    }
    SplitJoin(["1", "2", "3"]);
  }

  /** A piece that is not an `Int` is nil. */
  lemma TimeComponentsRejectsNonInteger()
    ensures TimeComponents("1a:30") == None
  {
    SplitPair("1a", "30");
    ParseIntRejectsInnerNonDigit("1a", 1);
  }

  /** Any clock text with non-negative fields reads back as the same hour and minute. */
  lemma ClockTextRoundTrip(hours: int, minutes: int)
    requires 0 <= hours <= INT_MAX && 0 <= minutes <= INT_MAX
    ensures TimeComponents(ClockText(hours, minutes)) == Some(HourMinute(hours, minutes))
  {
    Pad2Field(hours);
    Pad2Field(minutes);
    SplitPair(Pad2(hours), Pad2(minutes));
  }

  /** The text shown for an angle on the dial reads back as the hour and minute it shows. */
  lemma FormatParseRoundTrip(rotation: real)
    requires OnDial(rotation)
    ensures TimeComponents(ClockText(ClockHours(rotation), ClockMinutes(rotation)))
            == Some(HourMinute(ClockHours(rotation), ClockMinutes(rotation)))
  {
    ClockTextOnDial(rotation);
    ClockTextRoundTrip(ClockHours(rotation), ClockMinutes(rotation));
  }

  // ---------------------------------------------------------------------------
  // The view model object

  class CircularTimeSliderViewModel {
    /** Start knob angle in degrees. */
    var rotationStartTime: real
    /** End knob angle in degrees. */
    var rotationEndTime: real
    const config: Config

    /** Both knobs on the dial, the range the knob drags resolve angles into. */
    predicate KnobsOnDial()
      reads this
    {
      OnDial(rotationStartTime) && OnDial(rotationEndTime)
    }

    /** The default selection: 00:00 to 06:00. */
    constructor ()
      ensures rotationStartTime == 0.0 && rotationEndTime == 90.0 && config == DEFAULT_CONFIG
      ensures KnobsOnDial()
    {
      rotationStartTime := 0.0;
      rotationEndTime := 90.0;
      config := DEFAULT_CONFIG;
    }

    method GetFormattedDuration() returns (s: string)
      ensures s == DurationText(TotalDuration(rotationStartTime, rotationEndTime))
    {
      var duration := TotalDuration(rotationStartTime, rotationEndTime);
      var hours := Trunc(duration);
      var minutes := Trunc((duration - hours as real) * 60.0);
      minutes := RoundDownToFive(minutes);
      s := if hours > 0 then IntToString(hours) + " hr " + IntToString(minutes) + " min"
           else IntToString(minutes) + " min";
    }

    method GetStartTime() returns (s: string)
      ensures s == ClockText(ClockHours(rotationStartTime), ClockMinutes(rotationStartTime))
    {
      s := FormatTimeForRotation(rotationStartTime);
    }

    method GetEndTime() returns (s: string)
      ensures s == ClockText(ClockHours(rotationEndTime), ClockMinutes(rotationEndTime))
    {
      s := FormatTimeForRotation(rotationEndTime);
    }

    method FormatTimeForRotation(rotation: real) returns (s: string)
      ensures s == ClockText(ClockHours(rotation), ClockMinutes(rotation))
    {
      var totalHours := MapRotationToTime(rotation);
      var hours := Trunc(totalHours);
      var minutes := Trunc((totalHours - hours as real) * 60.0);
      minutes := RoundDownToFive(minutes);
      var hourStr := if hours < 10 then "0" + IntToString(hours) else IntToString(hours);
      var minuteStr := if minutes < 10 then "0" + IntToString(minutes) else IntToString(minutes);
      s := hourStr + ":" + minuteStr;
    }
  }
}
