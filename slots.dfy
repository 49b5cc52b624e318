/**
 * The date and time choices of the order form: one entry per hour of the
 * next slot window, and one entry per day from the first bookable day up to
 * and including the last. Calendar arithmetic (`Date` construction,
 * parsing and `toISOString`) is given as a `Calendar` of functions.
 */
module Slots {
  import opened Wrappers
  import opened JsText

  /** The slot-timing record as far as the two lists read it. */
  datatype SlotTiming = SlotTiming(
    startYear: int,
    startMonth: int,
    startDate: int,
    nextSlotStart: int,
    nextSlotEnd: int,
    endDateString: string)

  /**
   * The platform's calendar: the day number of local midnight of
   * `new Date(year, monthIndex, day)`; the day number `new Date(text)`
   * parses to, or none for an invalid date; and the `YYYY-MM-DD` text of
   * `toISOString().split('T')[0]` for a day number.
   */
  datatype Calendar = Calendar(
    localDay: (int, int, int) -> int,
    parseDay: string -> Option<int>,
    isoDate: int -> string)

  // ---------------------------------------------------------------------
  // Time slots

  /** `${hour.toString().padStart(2, '0')}:00`. */
  function HourValue(h: int): (v: string)
    ensures |v| >= 5 && v[|v| - 3..] == ":00"
  {
    PadStart2(IntToString(h)) + ":00"
  }

  function DigitValue(c: char): int {
    c as int - '0' as int
  }

  predicate IsDigit(c: char) {
    '0' <= c <= '9'
  }

  /** Reads back the hour of an `HH:00` value: two digits, then `:00`. */
  function HourOf(v: string): (h: Option<int>)
    ensures h.Some? ==> 0 <= h.value < 100
  {
    if |v| == 5 && IsDigit(v[0]) && IsDigit(v[1]) && v[2..] == ":00"
    then Some(10 * DigitValue(v[0]) + DigitValue(v[1]))
    else None
  }

  /** Every hour from 0 to 99 is written as two digits and `:00`, and reads back as itself. */
  lemma HourValueRoundTrip(h: int)
    requires 0 <= h < 100
    ensures |HourValue(h)| == 5
    ensures HourOf(HourValue(h)) == Some(h)
  {
    var digits := NatToString(h);
    if h < 10 {
      assert digits == [('0' as int + h) as char];
      assert PadStart2(digits) == ['0', ('0' as int + h) as char];
    } else {
      assert NatToString(h / 10) == [('0' as int + h / 10) as char];
      assert digits == [('0' as int + h / 10) as char, ('0' as int + h % 10) as char];
    }
    assert HourValue(h)[2..] == ":00";
  }

  /** Two different hours of a day give two different slot values. */
  lemma HourValueInjective(h: int, k: int)
    requires 0 <= h < 100 && 0 <= k < 100 && h != k
    ensures HourValue(h) != HourValue(k)
  {
    HourValueRoundTrip(h);
    HourValueRoundTrip(k);
  }

  /** `f` of `n` consecutive integers from `start`, in ascending order. */
  function Tabulate(f: int -> string, start: int, n: nat): (r: seq<string>)
    ensures |r| == n
  {
    if n == 0 then [] else Tabulate(f, start, n - 1) + [f(start + n - 1)]
  }

  /** The `i`-th entry of the tabulation is `f` of `start + i`. */
  lemma {:induction false} TabulateAt(f: int -> string, start: int, n: nat, i: int)
    requires 0 <= i < n
    ensures Tabulate(f, start, n)[i] == f(start + i)
  {
    if i < n - 1 {
      TabulateAt(f, start, n - 1, i);
    }
  }

  /** The values of `n` consecutive hours from `start`, in ascending order. */
  function HourValues(start: int, n: nat): (r: seq<string>)
    ensures |r| == n
  {
    Tabulate(HourValue, start, n)
  }

  /** The `i`-th of the values of `n` consecutive hours from `start` is that of hour `start + i`. */
  lemma HourValuesAt(start: int, n: nat, i: int)
    requires 0 <= i < n
    ensures HourValues(start, n)[i] == HourValue(start + i)
  {
    TabulateAt(HourValue, start, n, i);
  }

  /** The number of whole hours in `[start, end)`. */
  function HourCount(start: int, end: int): nat {
    if end > start then end - start else 0
  }

  /**
   * `getAvailableTimeSlots` (values only): one slot per hour `h` with
   * `nextslotstart <= h < nextslotend`, in ascending order (see
   * `HourValuesAt`); none without slot data.
   */
  method GetAvailableTimeSlots(slot: Option<SlotTiming>) returns (slots: seq<string>)
    ensures slot.None? ==> slots == []
    ensures slot.Some? ==> slots == HourValues(slot.value.nextSlotStart, HourCount(slot.value.nextSlotStart, slot.value.nextSlotEnd))
  {
    slots := [];
    if slot.None? {
      return;
    }
    var startHour := slot.value.nextSlotStart;
    var endHour := slot.value.nextSlotEnd;
    var hour := startHour;
    while hour < endHour
      invariant startHour <= hour
      invariant hour == startHour || hour <= endHour
      invariant slots == HourValues(startHour, hour - startHour)
      decreases endHour - hour
    {
      slots := slots + [HourValue(hour)];
      hour := hour + 1;
    }
  }

  // ---------------------------------------------------------------------
  // Dates

  /** `s.split('-').reverse().join('-')`: `DD-MM-YYYY` becomes `YYYY-MM-DD`. */
  function ReorderDate(s: string): string {
    Join(Reverse(Split(s, '-')), "-")
  }

  /** Reordering twice gives the text back: the reorder is its own inverse. */
  lemma {:induction false} ReorderDateInvolution(s: string)
    ensures ReorderDate(ReorderDate(s)) == s
  {
    var parts := Split(s, '-');
    var rev := Reverse(parts);
    assert forall i :: 0 <= i < |rev| ==> '-' !in rev[i] by {
      forall i | 0 <= i < |rev| ensures '-' !in rev[i] {
        assert rev[i] == parts[|parts| - 1 - i];
      }
    }
    SplitJoin(rev, '-');
    ReverseReverse(parts);
    JoinSplit(s, '-');
  }

  /** Splitting `d-m-y` on dashes gives its three fields. */
  lemma SplitThreeFields(d: string, m: string, y: string)
    requires '-' !in d && '-' !in m && '-' !in y
    ensures Split(d + "-" + m + "-" + y, '-') == [d, m, y]
  {
    SplitFirst(m, '-', y);
    SplitNoSep(y, '-');
    assert d + "-" + m + "-" + y == d + ['-'] + (m + ['-'] + y);
    SplitFirst(d, '-', m + ['-'] + y);
  }

  /** Joining three fields with dashes. */
  lemma JoinThreeFields(a: string, b: string, c: string)
    ensures Join([a, b, c], "-") == a + "-" + b + "-" + c
  {
    assert [a, b, c][1..] == [b, c];
    assert [b, c][1..] == [c];
    assert Join([c], "-") == c;
    assert Join([b, c], "-") == b + "-" + c;
  }

  /** The three dash-separated fields of an end date come out in reverse order. */
  lemma ReorderDateFields(d: string, m: string, y: string)
    requires '-' !in d && '-' !in m && '-' !in y
    ensures ReorderDate(d + "-" + m + "-" + y) == y + "-" + m + "-" + d
  {
    SplitThreeFields(d, m, y);
    assert Reverse([d, m, y]) == [y, m, d];
    JoinThreeFields(y, m, d);
  }

  /**
   * `getAvailableDates` (values only): the ISO dates of every day from the
   * start date up to and including the parsed end date, one day at a time;
   * none without slot data or when the end date does not parse.
   */
  method GetAvailableDates(slot: Option<SlotTiming>, cal: Calendar) returns (dates: seq<string>)
    ensures slot.None? ==> dates == []
    ensures slot.Some? && cal.parseDay(ReorderDate(slot.value.endDateString)).None? ==> dates == []
    ensures slot.Some? && cal.parseDay(ReorderDate(slot.value.endDateString)).Some? ==>
      var start := cal.localDay(slot.value.startYear, slot.value.startMonth - 1, slot.value.startDate);
      var end := cal.parseDay(ReorderDate(slot.value.endDateString)).value;
      |dates| == (if end >= start then end - start + 1 else 0) &&
      forall i :: 0 <= i < |dates| ==> dates[i] == cal.isoDate(start + i)
  {
    dates := [];
    if slot.None? {
      return;
    }
    var s := slot.value;
    var startDay := cal.localDay(s.startYear, s.startMonth - 1, s.startDate);
    var endDay := cal.parseDay(ReorderDate(s.endDateString));
    if endDay.None? {
      return;
    }
    var current := startDay;
    while current <= endDay.value
      invariant startDay <= current
      invariant current <= (if endDay.value >= startDay then endDay.value + 1 else startDay)
      invariant |dates| == current - startDay
      invariant forall i :: 0 <= i < |dates| ==> dates[i] == cal.isoDate(startDay + i)
      decreases endDay.value - current
    {
      dates := dates + [cal.isoDate(current)];
      current := current + 1;
    }
  }
}
