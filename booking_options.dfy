/**
 * The choices the booking form offers: the project types, the consultation
 * time slots, and the dates of the next two weeks on which the office is
 * open (every day but Sunday).
 *
 * Dates are day numbers of the `Calendar` module; `today` is the caller's
 * current day, taken as a parameter instead of being read from the clock.
 */
module BookingOptions {
  import opened Common
  import opened Text
  import opened Calendar

  /** A `{ value, label }` entry of a select box (`label` is a keyword here, hence `caption`). */
  datatype SelectOption = SelectOption(value: string, caption: string)

  /** `projectTypes`. */
  const ProjectTypes: seq<SelectOption> := [
    SelectOption("residential", "Residential"),
    SelectOption("commercial", "Commercial"),
    SelectOption("interior", "Interior Design"),
    SelectOption("renovation", "Renovation"),
    SelectOption("consultation", "General Consultation")
  ]

  /** `timeSlots`. */
  const TimeSlots: seq<SelectOption> := [
    SelectOption("10:00", "10:00 AM"),
    SelectOption("11:00", "11:00 AM"),
    SelectOption("12:00", "12:00 PM"),
    SelectOption("14:00", "2:00 PM"),
    SelectOption("15:00", "3:00 PM"),
    SelectOption("16:00", "4:00 PM")
  ]

  /** An "HH:MM" clock time on the 24-hour clock. */
  predicate IsClockTime(s: string) {
    |s| == 5 && AllDigits(s[..2]) && s[2] == ':' && AllDigits(s[3..]) &&
    DigitsValue(s[..2]) < 24 && DigitsValue(s[3..]) < 60
  }

  /** Minutes since midnight of an "HH:MM" time. */
  function MinuteOfDay(s: string): nat
    requires IsClockTime(s)
  {
    60 * DigitsValue(s[..2]) + DigitsValue(s[3..])
  }

  /** Every slot value is an "HH:MM" time, and the slots are listed from earliest to latest. */
  lemma TimeSlotsAreOrderedClockTimes()
    ensures forall i :: 0 <= i < |TimeSlots| ==> IsClockTime(TimeSlots[i].value)
    ensures forall i, j :: 0 <= i < j < |TimeSlots| ==>
      MinuteOfDay(TimeSlots[i].value) < MinuteOfDay(TimeSlots[j].value)
  {
    var minutes := [600, 660, 720, 840, 900, 960];
    forall i | 0 <= i < |TimeSlots|
      ensures IsClockTime(TimeSlots[i].value) && MinuteOfDay(TimeSlots[i].value) == minutes[i]
    {
      ClockTimeDigits(TimeSlots[i].value);
    }
  }

  /** The two numbers of an `HH:MM` string, digit by digit. */
  lemma ClockTimeDigits(s: string)
    requires |s| == 5 && IsDigit(s[0]) && IsDigit(s[1]) && s[2] == ':' && IsDigit(s[3]) && IsDigit(s[4])
    ensures AllDigits(s[..2]) && AllDigits(s[3..])
    ensures DigitsValue(s[..2]) == 10 * CharValue(s[0]) + CharValue(s[1])
    ensures DigitsValue(s[3..]) == 10 * CharValue(s[3]) + CharValue(s[4])
  {
    OneDigitValue(s[..2][..1]);
    OneDigitValue(s[3..][..1]);
  }

  lemma OneDigitValue(s: string)
    requires |s| == 1 && IsDigit(s[0])
    ensures AllDigits(s) && DigitsValue(s) == CharValue(s[0])
  {
    assert s[..0] == [];
  }

  /** No two project types share a value. */
  lemma ProjectTypeValuesDistinct()
    ensures forall i, j :: 0 <= i < j < |ProjectTypes| ==> ProjectTypes[i].value != ProjectTypes[j].value
  {
  }

  /** The days among `today + 1 .. today + k` that are not Sundays, in increasing order. */
  function OpenDays(today: nat, k: nat): seq<nat>
  {
    if k == 0 then []
    else OpenDays(today, k - 1) + (if JsWeekday(today + k) != 0 then [today + k] else [])
  }

  /** The days `getAvailableDates` offers: the next 14 days without Sundays. */
  function AvailableDays(today: nat): seq<nat> {
    OpenDays(today, 14)
  }

  /** A day is offered exactly when it lies in the window after today and is not a Sunday. */
  lemma {:induction false} OpenDaysMembership(today: nat, k: nat, x: nat)
    ensures x in OpenDays(today, k) <==> today < x <= today + k && JsWeekday(x) != 0
  {
    if k > 0 {
      OpenDaysMembership(today, k - 1, x);
    }
  }

  /** The offered days strictly increase, so none repeats. */
  lemma {:induction false} OpenDaysIncreasing(today: nat, k: nat)
    ensures forall i, j :: 0 <= i < j < |OpenDays(today, k)| ==> OpenDays(today, k)[i] < OpenDays(today, k)[j]
    ensures forall i :: 0 <= i < |OpenDays(today, k)| ==> today < OpenDays(today, k)[i] <= today + k
  {
    if k > 0 {
      OpenDaysIncreasing(today, k - 1);
    }
  }

  /**
   * Among the `k` days after today, the open days are all but the Sundays,
   * and the Sundays are the multiples of 7 passed by `getDay`'s count.
   */
  lemma {:induction false} OpenDaysCount(today: nat, k: nat)
    ensures |OpenDays(today, k)| + ((today + k + 1) / 7 - (today + 1) / 7) == k
  {
    if k > 0 {
      OpenDaysCount(today, k - 1);
      var y := today + k + 1;
      assert y / 7 == (y - 1) / 7 + (if y % 7 == 0 then 1 else 0);
    }
  }

  /** Any two weeks contain exactly two Sundays, so twelve days are always offered. */
  lemma TwelveAvailableDays(today: nat)
    ensures |AvailableDays(today)| == 12
  {
    OpenDaysCount(today, 14);
    assert (today + 15) / 7 == (today + 1) / 7 + 2;
  }

  /**
   * What `getAvailableDates` promises about its days: exactly the non-Sundays
   * among the next 14 days, never today, in increasing order, twelve of them.
   */
  lemma AvailableDaysSpec(today: nat)
    ensures forall x: nat :: x in AvailableDays(today) <==> today < x <= today + 14 && JsWeekday(x) != 0
    ensures forall i, j :: 0 <= i < j < |AvailableDays(today)| ==> AvailableDays(today)[i] < AvailableDays(today)[j]
    ensures |AvailableDays(today)| == 12
  {
    forall x: nat ensures x in AvailableDays(today) <==> today < x <= today + 14 && JsWeekday(x) != 0 {
      OpenDaysMembership(today, 14, x);
    }
    OpenDaysIncreasing(today, 14);
    TwelveAvailableDays(today);
  }

  /** `f` of each day among `today + 1 .. today + k` that is not a Sunday, in order. */
  function Offered(today: nat, k: nat, f: nat -> string): seq<string>
  {
    if k == 0 then []
    else Offered(today, k - 1, f) + (if JsWeekday(today + k) != 0 then [f(today + k)] else [])
  }

  /** The offered strings are, position by position, `f` of the offered days. */
  lemma {:induction false} OfferedMatch(today: nat, k: nat, f: nat -> string)
    ensures |Offered(today, k, f)| == |OpenDays(today, k)|
    ensures forall i :: 0 <= i < |OpenDays(today, k)| ==>
      today < OpenDays(today, k)[i] <= today + k && Offered(today, k, f)[i] == f(OpenDays(today, k)[i])
  {
    if k > 0 {
      OfferedMatch(today, k - 1, f);
      var days, dates := OpenDays(today, k - 1), Offered(today, k - 1, f);
      var days', dates' := OpenDays(today, k), Offered(today, k, f);
      if JsWeekday(today + k) != 0 {
        assert days' == days + [today + k] && dates' == dates + [f(today + k)];
        forall i | 0 <= i < |days'| ensures today < days'[i] <= today + k && dates'[i] == f(days'[i]) {
          if i < |days| {
            assert days'[i] == days[i] && dates'[i] == dates[i];
          }
        }
      } else {
        assert days' == days && dates' == dates;
      }
    }
  }

  /** `toISOString().split('T')[0]` on the days a JavaScript `Date` can hold (no other day is ever asked for). */
  const IsoDateOf: nat -> string := (n: nat) => if n <= JsMaxDay then IsoDate(n) else ""

  /** The strings offered for the available days. */
  function AvailableDates(today: nat): (r: seq<string>)
    requires today + 14 <= JsMaxDay
    ensures |r| == |AvailableDays(today)|
  {
    OfferedMatch(today, 14, IsoDateOf);
    Offered(today, 14, IsoDateOf)
  }

  /** One string per offered day, in order: the ISO date of that day. */
  lemma AvailableDatesSpec(today: nat)
    requires today + 14 <= JsMaxDay
    ensures forall i :: 0 <= i < |AvailableDates(today)| ==>
      AvailableDays(today)[i] <= JsMaxDay && AvailableDates(today)[i] == IsoDate(AvailableDays(today)[i])
  {
    OfferedMatch(today, 14, IsoDateOf);
  }

  /**
   * `getAvailableDates`: for each of the next 14 days that is not a Sunday,
   * the YYYY-MM-DD part of its ISO timestamp, in order.
   */
  method GetAvailableDates(today: nat) returns (dates: seq<string>)
    requires today + 14 <= JsMaxDay
    ensures dates == AvailableDates(today)
  {
    dates := [];
    for i := 1 to 15
      invariant dates == Offered(today, i - 1, IsoDateOf)
    {
      var date := today + i;
      if JsWeekday(date) != 0 {
        dates := dates + [IsoDateOf(date)];
      }
    }
  }


  /** The offered dates are twelve distinct strings, and today's date is not among them. */
  lemma AvailableDatesDistinct(today: nat)
    requires today + 14 <= JsMaxDay
    ensures |AvailableDates(today)| == 12
    ensures forall i, j :: 0 <= i < j < |AvailableDates(today)| ==> AvailableDates(today)[i] != AvailableDates(today)[j]
    ensures forall i :: 0 <= i < |AvailableDates(today)| ==> AvailableDates(today)[i] != IsoDate(today)
  {
    AvailableDaysSpec(today);
    AvailableDatesSpec(today);
    var days, dates := AvailableDays(today), AvailableDates(today);
    forall i, j | 0 <= i < j < |dates| ensures dates[i] != dates[j] {
      if dates[i] == dates[j] {
        IsoDateInjective(days[i], days[j]);
      }
    }
    forall i | 0 <= i < |dates| ensures dates[i] != IsoDate(today) {
      assert days[i] in days;
      if dates[i] == IsoDate(today) {
        IsoDateInjective(days[i], today);
      }
    }
  }
}
