/**
 * The date-and-time picker (src/components/ui/calendar-20.tsx): the table of 15-minute slots
 * from 09:00 to 18:00, the `HH:MM` check on a typed time, and the picker's state.
 */
module Calendar20 {
  import opened Wrappers
  import Text

  /** `n.toString()` for a natural number. */
  function Decimal(n: nat): (s: string)
    ensures s != []
    decreases n
  {
    if n < 10 then [Text.DigitChar(n)] else Decimal(n / 10) + [Text.DigitChar(n % 10)]
  }

  /** `s.padStart(2, "0")`. */
  function PadStart2(s: string): string {
    if |s| == 0 then "00" else if |s| == 1 then "0" + s else s
  }

  /** `n.toString().padStart(2, "0")`. */
  function TwoDigits(n: nat): string {
    PadStart2(Decimal(n))
  }

  /** Below 100, the padded text is the tens digit followed by the units digit. */
  lemma TwoDigitsOf(n: nat)
    requires n < 100
    ensures TwoDigits(n) == [Text.DigitChar(n / 10), Text.DigitChar(n % 10)]
  {
    if n >= 10 {
      assert Decimal(n / 10) == [Text.DigitChar(n / 10)];
    }
  }

  /** Slot `i` of `Array.from({ length: 37 }, (_, i) => ...)`. */
  function Slot(i: nat): string {
    var totalMinutes := i * 15;
    var hour := totalMinutes / 60 + 9;
    var minute := totalMinutes % 60;
    TwoDigits(hour) + ":" + TwoDigits(minute)
  }

  /** `timeSlots`. */
  function TimeSlots(): (slots: seq<string>)
    ensures |slots| == 37
    ensures forall i :: 0 <= i < 37 ==> IsClockTime(slots[i]) && ClockMinutes(slots[i]) == 540 + 15 * i
  {
    SlotsValid();
    seq(37, (i: int) requires 0 <= i => Slot(i))
  }

  /** The pattern `^([0-1]?[0-9]|2[0-3]):[0-5][0-9]$`: an hour of one or two digits up to 23, a colon, two minute digits up to 59. */
  predicate IsClockTime(v: string)
    ensures IsClockTime(v) ==> (|v| == 4 || |v| == 5) && v[|v| - 3] == ':'
    ensures IsClockTime(v) ==> forall i :: 0 <= i < |v| && i != |v| - 3 ==> Text.IsDigit(v[i])
  {
    (|v| == 4 && Text.IsDigit(v[0]) && v[1] == ':' && '0' <= v[2] <= '5' && Text.IsDigit(v[3]))
    || (|v| == 5
        && (('0' <= v[0] <= '1' && Text.IsDigit(v[1])) || (v[0] == '2' && '0' <= v[1] <= '3'))
        && v[2] == ':' && '0' <= v[3] <= '5' && Text.IsDigit(v[4]))
  }

  /** The hour an accepted time names. */
  function ClockHour(v: string): nat
    requires IsClockTime(v)
  {
    if |v| == 4 then Text.DigitValue(v[0]) else 10 * Text.DigitValue(v[0]) + Text.DigitValue(v[1])
  }

  /** The minute (within the hour) an accepted time names. */
  function ClockMinute(v: string): nat
    requires IsClockTime(v)
  {
    10 * Text.DigitValue(v[|v| - 2]) + Text.DigitValue(v[|v| - 1])
  }

  /** The minute of the day an accepted time names. */
  function ClockMinutes(v: string): nat
    requires IsClockTime(v)
  {
    60 * ClockHour(v) + ClockMinute(v)
  }

  /** An accepted time is a real time of day: hour 0 to 23, minute 0 to 59. */
  lemma ClockTimeInDay(v: string)
    requires IsClockTime(v)
    ensures ClockHour(v) < 24 && ClockMinute(v) < 60
    ensures ClockMinutes(v) < 24 * 60
  {
  }

  /** Every time of day, written as two padded pairs, is accepted and read back as itself. */
  lemma PaddedTimeAccepted(hour: nat, minute: nat)
    requires hour < 24 && minute < 60
    ensures IsClockTime(TwoDigits(hour) + ":" + TwoDigits(minute))
    ensures ClockHour(TwoDigits(hour) + ":" + TwoDigits(minute)) == hour
    ensures ClockMinute(TwoDigits(hour) + ":" + TwoDigits(minute)) == minute
  {
    TwoDigitsOf(hour);
    TwoDigitsOf(minute);
    var v := TwoDigits(hour) + ":" + TwoDigits(minute);
    assert v == [Text.DigitChar(hour / 10), Text.DigitChar(hour % 10), ':', Text.DigitChar(minute / 10), Text.DigitChar(minute % 10)];
  }

  /** Slot `i` is accepted by the custom-time check and names 09:00 plus `15 * i` minutes. */
  lemma SlotIsClockTime(i: nat)
    requires i < 37
    ensures IsClockTime(Slot(i))
    ensures ClockMinutes(Slot(i)) == 9 * 60 + 15 * i
  {
    var totalMinutes := i * 15;
    PaddedTimeAccepted(totalMinutes / 60 + 9, totalMinutes % 60);
  }

  /** There are 37 slots, from "09:00" to "18:00", each a valid time later than the one before. */
  lemma TimeSlotsTable()
    ensures |TimeSlots()| == 37
    ensures TimeSlots()[0] == "09:00" && TimeSlots()[36] == "18:00"
    ensures forall i :: 0 <= i < 37 ==> IsClockTime(TimeSlots()[i])
    ensures forall i, j :: 0 <= i < j < 37 ==> ClockMinutes(TimeSlots()[i]) < ClockMinutes(TimeSlots()[j])
  {
    TimeSlotsEnds();
  }

  lemma TimeSlotsEnds()
    ensures TimeSlots()[0] == "09:00" && TimeSlots()[36] == "18:00"
  {
    TwoDigitsOf(9);
    TwoDigitsOf(0);
    TwoDigitsOf(18);
    assert TimeSlots()[0] == Slot(0) == TwoDigits(9) + ":" + TwoDigits(0);
    assert TimeSlots()[36] == Slot(36) == TwoDigits(18) + ":" + TwoDigits(0);
  }

  /** Slot `i` of the 37 is a valid time naming 09:00 plus `15 * i` minutes. */
  lemma SlotsValid()
    ensures forall i :: 0 <= i < 37 ==> IsClockTime(Slot(i)) && ClockMinutes(Slot(i)) == 540 + 15 * i
  {
    forall i | 0 <= i < 37 ensures IsClockTime(Slot(i)) && ClockMinutes(Slot(i)) == 540 + 15 * i {
      SlotIsClockTime(i);
    }
  }

  // ---------------------------------------------------------------------------
  // The picker's state
  // ---------------------------------------------------------------------------

  /** A calendar day, with the month counted from 0 as `new Date(y, m, d)` does. */
  datatype CalendarDate = CalendarDate(year: int, monthIndex: int, day: int)

  /** `new Date(2025, 5, 12)`: 12 June 2025. */
  const DefaultDate := CalendarDate(2025, 5, 12)

  /** `Calendar20`'s `date`, `time`, `customTime` and `showCustomTime` state. */
  class Picker {
    var date: Option<CalendarDate>
    var time: Option<string>
    var customTime: string
    var showCustomTime: bool

    /** `time` is none or a time the custom-time check accepts. */
    predicate TimeWellFormed()
      reads this
    {
      time.None? || IsClockTime(time.value)
    }

    /** The initial state: `selectedDate || new Date(2025, 5, 12)` and `selectedTime || null`. */
    constructor (selectedDate: Option<CalendarDate>, selectedTime: Option<string>)
      ensures date == Some(selectedDate.GetOr(DefaultDate))
      ensures time == if selectedTime.Some? && selectedTime.value != "" then selectedTime else None
      ensures customTime == "" && !showCustomTime
    {
      date := Some(selectedDate.GetOr(DefaultDate));
      time := if selectedTime.Some? && selectedTime.value != "" then selectedTime else None;
      customTime := "";
      showCustomTime := false;
    }

    /** `handleDateSelect`: the new day (or none) is stored; `onDateSelect` is told the same value. */
    method HandleDateSelect(newDate: Option<CalendarDate>)
      modifies this
      ensures date == newDate
      ensures time == old(time) && customTime == old(customTime) && showCustomTime == old(showCustomTime)
    {
      date := newDate;
    }

    /**
     * `handleTimeSelect`: the chosen slot becomes the time, the custom field closes and clears.
     * `reported` is what `onTimeSelect` receives.
     */
    method HandleTimeSelect(newTime: string) returns (reported: Option<string>)
      modifies this
      ensures time == Some(newTime) && !showCustomTime && customTime == ""
      ensures date == old(date)
      ensures reported == Some(newTime)
      ensures newTime in TimeSlots() ==> TimeWellFormed()
    {
      time := Some(newTime);
      showCustomTime := false;
      customTime := "";
      reported := Some(newTime);
      if newTime in TimeSlots() {
        var i :| 0 <= i < |TimeSlots()| && TimeSlots()[i] == newTime;
        assert IsClockTime(TimeSlots()[i]);
      }
    }

    /**
     * `handleCustomTimeChange`: the typed text is always kept in the field; it becomes the time,
     * and is reported, only when the check accepts it.
     */
    method HandleCustomTimeChange(value: string) returns (reported: Option<string>)
      modifies this
      ensures customTime == value
      ensures date == old(date) && showCustomTime == old(showCustomTime)
      ensures IsClockTime(value) ==> time == Some(value) && reported == Some(value)
      ensures !IsClockTime(value) ==> time == old(time) && reported == None
      ensures old(TimeWellFormed()) ==> TimeWellFormed()
    {
      customTime := value;
      reported := None;
      if IsClockTime(value) {
        time := Some(value);
        reported := Some(value);
      }
    }

    /** `toggleCustomTime`: flip the field's visibility, clearing its text when it was open. */
    method ToggleCustomTime()
      modifies this
      ensures showCustomTime == !old(showCustomTime)
      ensures customTime == if old(showCustomTime) then "" else old(customTime)
      ensures date == old(date) && time == old(time)
    {
      var wasShown := showCustomTime;
      showCustomTime := !wasShown;
      if wasShown {
        customTime := "";
      }
    }
  }
}
