/** The slider view's logic: where the pointer is on the ring, and how a drag writes
    the knob angles of the view model. Drawing is not modelled. */
module SliderView {
  import opened Optional
  import opened Decimal
  import opened Dial
  import opened SliderViewModel

  /** The decimal literal of Swift's `Double.pi`, taken as an exact real. */
  const PI: real := 3.141592653589793

  /** Least angle, in degrees, the guarded change keeps between the knobs. */
  const MIN_DISTANCE: real := 20.0

  datatype ChangeType = STARTTIME | ENDTIME | CONNECTOR

  /** Label of hour mark `i` (1..24 around the ring): only even hours are labelled,
      and the 24th mark, at the top, reads "0". */
  function GetHourStringByInt(i: int): (s: string)
    requires INT_MIN <= i <= INT_MAX
    ensures s == "" <==> i % 2 != 0
    ensures s != "" ==> ParseInt(s) == Some(if i == 24 then 0 else i)
  {
    if i == 24 then
      "0"
    else if i % 2 == 0 then
      IntToStringRoundTrip(i);
      IntToString(i)
    else
      ""
  }

  /** `atan2`'s angle turned so that 0 is the top of the ring and angles grow
      clockwise, in degrees, before negatives are moved up by a turn. */
  function RawAngle(theta: real): real {
    (theta + PI / 2.0) / PI * 180.0
  }

  /** For an `atan2` value in (-pi, pi] the turned angle is in (-90, 270]. */
  lemma RawAngleRange(theta: real)
    requires -PI < theta <= PI
    ensures -90.0 < RawAngle(theta) <= 270.0
  {
  }

  class CircularTimeSlider {
    const viewModel: CircularTimeSliderViewModel

    constructor (viewModel: CircularTimeSliderViewModel)
      ensures this.viewModel == viewModel
    {
      this.viewModel := viewModel;
    }

    /** `atan2` of the pointer, measured from the knob-radius offset origin of the
        drag coordinates. `atan2` itself is a parameter: it is a library call. */
    function Theta(x: real, y: real, atan2: (real, real) -> real): real {
      atan2(y - viewModel.config.knobRadius, x - viewModel.config.knobRadius)
    }

    /** The range of `atan2` at this pointer position. */
    predicate AtanInRange(x: real, y: real, atan2: (real, real) -> real) {
      -PI < Theta(x, y, atan2) <= PI
    }

    /** The dial angle pointing where the pointer is. */
    function PointerAngle(x: real, y: real, atan2: (real, real) -> real): real {
      Wrap360(RawAngle(Theta(x, y, atan2)))
    }

    method CalcAngle(x: real, y: real, atan2: (real, real) -> real) returns (angle: real)
      requires AtanInRange(x, y, atan2)
      ensures OnDial(angle)
      ensures angle == PointerAngle(x, y, atan2)
    {
      angle := (atan2(y - viewModel.config.knobRadius, x - viewModel.config.knobRadius) + PI / 2.0) / PI * 180.0;
      ghost var raw := angle;
      RawAngleRange(Theta(x, y, atan2));
      if angle < 0.0 {
        angle := angle + 360.0;
      }
      assert SameDirection(angle, raw) by {
        assert (angle - raw) / 360.0 == if raw < 0.0 then 1.0 else 0.0;
      }
      Wrap360Turns(raw, if raw < 0.0 then 1 else 0);
      assert SameDirection(angle, Wrap360(angle));
      SameDirectionOnDial(angle, Wrap360(angle));
    }

    /** The guarded change: a knob moves to the pointer only if that leaves the end at
        least `MIN_DISTANCE` degrees after the start; otherwise the other knob is
        pushed to exactly that distance. The test is a plain difference of angles. */
    method Change(x: real, y: real, atan2: (real, real) -> real, kind: ChangeType)
      requires AtanInRange(x, y, atan2)
      modifies viewModel
      ensures var angle := PointerAngle(x, y, atan2);
              var start, end := old(viewModel.rotationStartTime), old(viewModel.rotationEndTime);
              match kind
              case STARTTIME =>
                if end - angle >= MIN_DISTANCE then
                  viewModel.rotationStartTime == angle && viewModel.rotationEndTime == end
                else
                  viewModel.rotationStartTime == start && viewModel.rotationEndTime == start + MIN_DISTANCE
              case ENDTIME =>
                if angle - start >= MIN_DISTANCE then
                  viewModel.rotationEndTime == angle && viewModel.rotationStartTime == start
                else
                  viewModel.rotationEndTime == end && viewModel.rotationStartTime == end - MIN_DISTANCE
              case CONNECTOR =>
                viewModel.rotationStartTime == start && viewModel.rotationEndTime == end
      ensures kind != CONNECTOR ==>
                viewModel.rotationEndTime - viewModel.rotationStartTime >= MIN_DISTANCE
    {
      var angle := CalcAngle(x, y, atan2);
      var minDistance := MIN_DISTANCE;
      match kind
      case STARTTIME =>
        if viewModel.rotationEndTime - angle >= minDistance {
          viewModel.rotationStartTime := angle;
        } else {
          viewModel.rotationEndTime := viewModel.rotationStartTime + minDistance;
        }
      case ENDTIME =>
        if angle - viewModel.rotationStartTime >= minDistance {
          viewModel.rotationEndTime := angle;
        } else {
          viewModel.rotationStartTime := viewModel.rotationEndTime - minDistance;
        }
      case CONNECTOR =>
    }

    /** Dragging the start knob puts it under the pointer, with no guard. */
    method DragStartKnob(x: real, y: real, atan2: (real, real) -> real)
      requires AtanInRange(x, y, atan2)
      modifies viewModel
      ensures viewModel.rotationStartTime == PointerAngle(x, y, atan2)
      ensures viewModel.rotationEndTime == old(viewModel.rotationEndTime)
      ensures old(OnDial(viewModel.rotationEndTime)) ==> viewModel.KnobsOnDial()
    {
      var angle := CalcAngle(x, y, atan2);
      viewModel.rotationStartTime := angle;
    }

    /** Dragging the end knob puts it under the pointer, with no guard. */
    method DragEndKnob(x: real, y: real, atan2: (real, real) -> real)
      requires AtanInRange(x, y, atan2)
      modifies viewModel
      ensures viewModel.rotationEndTime == PointerAngle(x, y, atan2)
      ensures viewModel.rotationStartTime == old(viewModel.rotationStartTime)
      ensures old(OnDial(viewModel.rotationStartTime)) ==> viewModel.KnobsOnDial()
    {
      var angle := CalcAngle(x, y, atan2);
      viewModel.rotationEndTime := angle;
    }

    /** Dragging an hour label turns the whole selection: the start goes under the
        pointer and the end moves by the same angle. The end is not brought back onto
        the dial. */
    method DragHourLabel(x: real, y: real, atan2: (real, real) -> real)
      requires AtanInRange(x, y, atan2)
      modifies viewModel
      ensures viewModel.rotationStartTime == PointerAngle(x, y, atan2)
      ensures viewModel.rotationEndTime - viewModel.rotationStartTime
              == old(viewModel.rotationEndTime - viewModel.rotationStartTime)
      ensures ConnectorLength(viewModel.rotationStartTime, viewModel.rotationEndTime)
              == old(ConnectorLength(viewModel.rotationStartTime, viewModel.rotationEndTime))
      ensures TotalDuration(viewModel.rotationStartTime, viewModel.rotationEndTime)
              == old(TotalDuration(viewModel.rotationStartTime, viewModel.rotationEndTime))
    {
      var angle := CalcAngle(x, y, atan2);
      var deltaRotation := angle - viewModel.rotationStartTime;
      ShiftKeepsArcAndDuration(viewModel.rotationStartTime, viewModel.rotationEndTime, deltaRotation);
      viewModel.rotationStartTime := viewModel.rotationStartTime + deltaRotation;
      viewModel.rotationEndTime := viewModel.rotationEndTime + deltaRotation;
    }

    /** The whole-selection turn with the end brought back onto the dial: both knobs
        stay on the dial, and the arc and the duration are kept. */
    method DragHourLabelOnDial(x: real, y: real, atan2: (real, real) -> real)
      requires AtanInRange(x, y, atan2)
      requires viewModel.KnobsOnDial()
      modifies viewModel
      ensures viewModel.KnobsOnDial()
      ensures viewModel.rotationStartTime == PointerAngle(x, y, atan2)
      ensures ConnectorLength(viewModel.rotationStartTime, viewModel.rotationEndTime)
              == old(ConnectorLength(viewModel.rotationStartTime, viewModel.rotationEndTime))
      ensures TotalDuration(viewModel.rotationStartTime, viewModel.rotationEndTime)
              == old(TotalDuration(viewModel.rotationStartTime, viewModel.rotationEndTime))
    {
      var start, end := viewModel.rotationStartTime, viewModel.rotationEndTime;
      var angle := CalcAngle(x, y, atan2);
      var deltaRotation := angle - start;
      var newEnd := Wrap360(end + deltaRotation);
      viewModel.rotationStartTime := start + deltaRotation;
      viewModel.rotationEndTime := newEnd;

      var turns := ((end + deltaRotation - newEnd) / 360.0).Floor;
      assert newEnd - angle == end - start - 360.0 * turns as real;
      Wrap360Turns(end - start, -turns);
      ConnectorIsClockwiseAngle(start, end);
      ConnectorIsClockwiseAngle(angle, newEnd);
      DurationIsArcOfDay(start, end);
      DurationIsArcOfDay(angle, newEnd);
    }
  }

  /** From the default 00:00 to 06:00 selection, dragging an hour label to the 20:00
      position (300 degrees, where `atan2` gives -5pi/6) leaves the end at 390
      degrees, and the end time reads "26:00". */
  method RotateFromDefaultShowsHour26() returns (endDegrees: real, endText: string)
    ensures endDegrees == 390.0
    ensures endText == "26:00"
  {
    var vm := new CircularTimeSliderViewModel();
    var view := new CircularTimeSlider(vm);
    var atan2 := (dy: real, dx: real) => -5.0 * PI / 6.0;
    assert view.Theta(0.0, 0.0, atan2) == -5.0 * PI / 6.0;
    assert RawAngle(-5.0 * PI / 6.0) == -60.0;
    assert (-60.0 / 360.0).Floor == -1;
    assert view.PointerAngle(0.0, 0.0, atan2) == 300.0;
    view.DragHourLabel(0.0, 0.0, atan2);
    endDegrees := vm.rotationEndTime;
    endText := vm.GetEndTime();
    assert ClockHours(390.0) == 26 && MinuteOfHour(MapRotationToTime(390.0)) == 0;
    assert IntToString(26) == "26";
  }

  /** After that rotate (start 300 degrees, end 390), dragging the start knob to 10
      degrees (where `atan2` gives -4pi/9) gives a duration of 25 h 20 min and an arc
      of more than the whole ring, outside the [0, 24) and [0, 1) that both values keep
      while the knobs are on the dial. */
  method RotateThenDragStartOverlong() returns (hours: real, arc: real, text: string)
    ensures hours == 76.0 / 3.0 && hours >= 24.0
    ensures arc == 19.0 / 18.0 && arc >= 1.0
    ensures text == "25 hr 20 min"
  {
    var vm := new CircularTimeSliderViewModel();
    var view := new CircularTimeSlider(vm);
    var toHour20 := (dy: real, dx: real) => -5.0 * PI / 6.0;
    assert RawAngle(-5.0 * PI / 6.0) == -60.0;
    assert (-60.0 / 360.0).Floor == -1;
    assert view.PointerAngle(0.0, 0.0, toHour20) == 300.0;
    view.DragHourLabel(0.0, 0.0, toHour20);
    var toTen := (dy: real, dx: real) => -4.0 * PI / 9.0;
    assert RawAngle(-4.0 * PI / 9.0) == 10.0;
    assert (10.0 / 360.0).Floor == 0;
    assert view.PointerAngle(0.0, 0.0, toTen) == 10.0;
    view.DragStartKnob(0.0, 0.0, toTen);
    assert vm.rotationStartTime == 10.0 && vm.rotationEndTime == 390.0;
    hours := TotalDuration(vm.rotationStartTime, vm.rotationEndTime);
    arc := ConnectorLength(vm.rotationStartTime, vm.rotationEndTime);
    text := vm.GetFormattedDuration();
    OverlongDurationAndArc();
    OverlongDurationText();
  }

  /** From 10 to 390 degrees the duration is 76/3 hours, 25 whole hours and 20
      minutes, and the arc is 19/18 of the ring. */
  lemma OverlongDurationAndArc()
    ensures TotalDuration(10.0, 390.0) == 76.0 / 3.0
    ensures ConnectorLength(10.0, 390.0) == 19.0 / 18.0
    ensures Trunc(76.0 / 3.0) == 25 && FloorToFive(MinuteOfHour(76.0 / 3.0)) == 20
  {
    assert 25.0 <= 76.0 / 3.0 < 26.0;
    assert (76.0 / 3.0 - 25.0) * 60.0 == 20.0;
  }

  /** A duration of 76/3 hours reads "25 hr 20 min". */
  lemma OverlongDurationText()
    ensures DurationText(76.0 / 3.0) == "25 hr 20 min"
  {
    OverlongDurationAndArc();
    assert IntToString(25) == "25" by {
      assert NatToString(25) == NatToString(2) + [DigitChar(5)];
    }
    assert IntToString(20) == "20" by {
      assert NatToString(20) == NatToString(2) + [DigitChar(0)];
    }
  }

  /** An end turned below zero (20:00 to 06:00 dragged to the 00:00 position gives
      -270 degrees) is shown as "0-18:00". The `updateDateWithTime` parser would reject
      that text; in the code that parser reads only the start text, which stays on the
      dial, so this is about what the end label shows, not about a parse that happens. */
  lemma EndBelowZeroUnreadable()
    ensures ClockText(ClockHours(-270.0), ClockMinutes(-270.0)) == "0-18:00"
    ensures TimeComponents("0-18:00") == None
  {
    assert ClockHours(-270.0) == -18 && MinuteOfHour(MapRotationToTime(-270.0)) == 0;
    assert IntToString(-18) == "-18";
    SplitPair("0-18", "00");
    assert "0-18" + ":" + "00" == "0-18:00";
    ParseIntRejectsInnerNonDigit("0-18", 1);
  }
}
