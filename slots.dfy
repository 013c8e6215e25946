/** The demo slot generator of the users routes. A day is a day number counted
    from 1970-01-01 (day 0, a Thursday); rendering a day as its ISO date
    (`YYYY-MM-DD`) is the parameter `iso`. */
module Slots {

  /** `getDay()`: 0 is Sunday and 6 is Saturday; day 0 was a Thursday. */
  function Weekday(day: int): (w: int)
    ensures 0 <= w < 7
  {
    (day + 4) % 7
  }

  predicate IsWeekend(day: int)
  {
    Weekday(day) == 0 || Weekday(day) == 6
  }

  /** The days after `today` the generator looks at. */
  const WindowLength: nat := 7

  /** The times emitted for every included day, appended to its ISO date. */
  const SlotTimes: seq<string> := ["T10:00:00", "T14:00:00", "T16:00:00"]

  /** The days among today + 1 .. today + n that are not weekend days, in order. */
  function SlotDays(today: int, n: nat): seq<int>
  {
    if n == 0 then []
    else SlotDays(today, n - 1) + (if IsWeekend(today + n) then [] else [today + n])
  }

  /** The three slots of one day. */
  function DaySlots(iso: int -> string, day: int): seq<string>
  {
    [iso(day) + SlotTimes[0], iso(day) + SlotTimes[1], iso(day) + SlotTimes[2]]
  }

  /** The slots of the given days, day after day. */
  function SlotsOf(iso: int -> string, days: seq<int>): seq<string>
  {
    if days == [] then []
    else SlotsOf(iso, days[..|days| - 1]) + DaySlots(iso, days[|days| - 1])
  }

  /** What `generateDemoSlots()` returns when the clock reads `today`. */
  function DemoSlots(today: int, iso: int -> string): seq<string>
  {
    SlotsOf(iso, SlotDays(today, WindowLength))
  }

  /** The loop of `generateDemoSlots`. */
  method GenerateDemoSlots(today: int, iso: int -> string) returns (slots: seq<string>)
    ensures slots == DemoSlots(today, iso)
  {
    slots := [];
    for i := 1 to WindowLength + 1
      invariant slots == SlotsOf(iso, SlotDays(today, i - 1))
    {
      ghost var days := SlotDays(today, i - 1);
      assert SlotDays(today, i) == days + (if IsWeekend(today + i) then [] else [today + i]);
      if IsWeekend(today + i) {
        assert days + [] == days;
        continue;
      }
      var dateStr := iso(today + i);
      slots := slots + [dateStr + "T10:00:00", dateStr + "T14:00:00", dateStr + "T16:00:00"];
      assert (days + [today + i])[..|days|] == days;
      assert DaySlots(iso, today + i) == [dateStr + "T10:00:00", dateStr + "T14:00:00", dateStr + "T16:00:00"];
    }
  }

  /** The included days are exactly the weekdays of the window, strictly increasing. */
  lemma {:induction false} SlotDaysExact(today: int, n: nat)
    ensures forall d :: d in SlotDays(today, n) <==> today < d <= today + n && !IsWeekend(d)
    ensures forall i, j :: 0 <= i < j < |SlotDays(today, n)| ==> SlotDays(today, n)[i] < SlotDays(today, n)[j]
  {
    if n > 0 {
      SlotDaysExact(today, n - 1);
      var prefix := SlotDays(today, n - 1);
      assert forall k :: 0 <= k < |prefix| ==> prefix[k] in prefix;
    }
  }

  /** Each day contributes three consecutive slots, 10:00, 14:00 and 16:00, in day order. */
  lemma {:induction false} SlotsOfLayout(iso: int -> string, days: seq<int>)
    ensures |SlotsOf(iso, days)| == 3 * |days|
    ensures forall k, j :: 0 <= k < |days| && 0 <= j < 3 ==>
      SlotsOf(iso, days)[3 * k + j] == iso(days[k]) + SlotTimes[j]
  {
    if days != [] {
      var init := days[..|days| - 1];
      SlotsOfLayout(iso, init);
      forall k, j | 0 <= k < |days| && 0 <= j < 3
        ensures SlotsOf(iso, days)[3 * k + j] == iso(days[k]) + SlotTimes[j]
      {
        if k < |init| {
          assert days[k] == init[k];
        }
      }
    }
  }

  /** Any seven consecutive days hold exactly five weekdays. */
  lemma FiveWeekdays(today: int)
    ensures |SlotDays(today, WindowLength)| == 5
  {
    var w := Weekday(today + 1);
    assert Weekday(today + 2) == (w + 1) % 7;
    assert Weekday(today + 3) == (w + 2) % 7;
    assert Weekday(today + 4) == (w + 3) % 7;
    assert Weekday(today + 5) == (w + 4) % 7;
    assert Weekday(today + 6) == (w + 5) % 7;
    assert Weekday(today + 7) == (w + 6) % 7;
    assert |SlotDays(today, 1)| == if IsWeekend(today + 1) then 0 else 1;
    assert |SlotDays(today, 2)| == |SlotDays(today, 1)| + if IsWeekend(today + 2) then 0 else 1;
    assert |SlotDays(today, 3)| == |SlotDays(today, 2)| + if IsWeekend(today + 3) then 0 else 1;
    assert |SlotDays(today, 4)| == |SlotDays(today, 3)| + if IsWeekend(today + 4) then 0 else 1;
    assert |SlotDays(today, 5)| == |SlotDays(today, 4)| + if IsWeekend(today + 5) then 0 else 1;
    assert |SlotDays(today, 6)| == |SlotDays(today, 5)| + if IsWeekend(today + 6) then 0 else 1;
    assert |SlotDays(today, 7)| == |SlotDays(today, 6)| + if IsWeekend(today + 7) then 0 else 1;
  }

  /** The generator's whole promise: fifteen slots for any start day; slot 3k + j
      is the k-th weekday of today + 1 .. today + 7 at the j-th time, so no slot
      falls on a Saturday or a Sunday and the days come in increasing order. */
  lemma DemoSlotsShape(today: int, iso: int -> string)
    ensures |DemoSlots(today, iso)| == 15
    ensures var days := SlotDays(today, WindowLength);
      && |days| == 5
      && (forall d :: d in days <==> today < d <= today + WindowLength && !IsWeekend(d))
      && (forall i, j :: 0 <= i < j < |days| ==> days[i] < days[j])
      && (forall k, j :: 0 <= k < |days| && 0 <= j < 3 ==>
            DemoSlots(today, iso)[3 * k + j] == iso(days[k]) + SlotTimes[j])
  {
    FiveWeekdays(today);
    SlotDaysExact(today, WindowLength);
    SlotsOfLayout(iso, SlotDays(today, WindowLength));
  }
}
