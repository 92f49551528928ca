/**
 * `GET /api/events/today`: a fixed weekly schedule of mock events for the
 * requested date, chosen by the date's day of the week.
 */
module EventsTodayRoute {
  import opened Options
  import Text

  datatype Event = Event(id: string, name: string, description: string, date: string, startTime: string, endTime: string)

  /** The id of the `k`-th event of a day, counting from 1. */
  function EventId(dateStr: string, k: nat): string {
    "event-" + dateStr + "-" + Text.NatToString(k)
  }

  /** Strict lexicographic order on strings, by character code, as JavaScript's `<` compares them. */
  predicate LexLess(a: string, b: string)
    decreases |a|
  {
    b != [] && (a == [] || a[0] < b[0] || (a[0] == b[0] && LexLess(a[1..], b[1..])))
  }

  /** `a <= b` on strings. */
  predicate LexAtMost(a: string, b: string) {
    a == b || LexLess(a, b)
  }

  /** One entry of the weekly schedule, before the date and id are filled in. */
  datatype Slot = Slot(name: string, description: string, startTime: string, endTime: string)

  /**
   * The schedule of a day, by `day` the result of `new Date(dateStr).getDay()`:
   * 0 to 6, or None when the date does not parse (getDay is NaN, and no
   * comparison in the chain holds).
   */
  function DaySlots(day: Option<int>): (slots: seq<Slot>)
    ensures day == Some(1) || day == Some(5) ==> |slots| == 2
    ensures day == Some(0) || day == Some(6) ==> slots == []
    ensures !(day == Some(0) || day == Some(1) || day == Some(5) || day == Some(6)) ==> |slots| == 1
  {
    if day == Some(1) then
      [ Slot("Weekly Team Meeting", "Regular team sync-up", "09:30", "10:30"),
        Slot("Project Planning", "Planning session for upcoming projects", "14:00", "15:30") ]
    else if day == Some(3) then
      [ Slot("Mid-week Review", "Review progress on current tasks", "11:00", "12:00") ]
    else if day == Some(5) then
      [ Slot("Weekly Wrap-up", "End of week summary and planning", "16:00", "17:00"),
        Slot("Team Social", "Casual team gathering", "17:30", "19:00") ]
    else if day == Some(0) || day == Some(6) then
      []
    else
      [ Slot("Daily Standup", "Team daily standup meeting", "09:30", "10:00") ]
  }

  /**
   * `generateEventsForDate(dateStr)`: the day's schedule, each entry dated
   * `dateStr` and numbered from 1 in its id.
   */
  function EventsForDate(dateStr: string, day: Option<int>): (events: seq<Event>)
    ensures |events| == |DaySlots(day)|
    ensures forall k :: 0 <= k < |events| ==>
      && events[k].date == dateStr && events[k].id == EventId(dateStr, k + 1)
      && events[k].name == DaySlots(day)[k].name && events[k].description == DaySlots(day)[k].description
      && events[k].startTime == DaySlots(day)[k].startTime && events[k].endTime == DaySlots(day)[k].endTime
  {
    var slots := DaySlots(day);
    seq(|slots|, k requires 0 <= k < |slots| =>
      Event(EventId(dateStr, k + 1), slots[k].name, slots[k].description, dateStr, slots[k].startTime, slots[k].endTime))
  }

  /** The comparisons between the times the schedule uses. */
  lemma ScheduleTimes()
    ensures LexLess("09:30", "10:30") && LexLess("14:00", "15:30") && LexLess("11:00", "12:00")
    ensures LexLess("16:00", "17:00") && LexLess("17:30", "19:00") && LexLess("09:30", "10:00")
    ensures LexLess("09:30", "14:00") && LexLess("10:30", "14:00")
    ensures LexLess("16:00", "17:30") && LexLess("17:00", "17:30")
  {
    assert LexLess("5:30", "7:00") && LexLess("5:30", "6:00") && LexLess("6:00", "7:30");
    assert LexLess("4:00", "5:30") && LexLess("7:30", "9:00") && LexLess("7:00", "7:30");
    assert LexLess(":00", ":30");
  }

  /** Every slot of the schedule starts before it ends. */
  lemma SlotsStartBeforeTheyEnd(day: Option<int>)
    ensures forall k :: 0 <= k < |DaySlots(day)| ==> LexLess(DaySlots(day)[k].startTime, DaySlots(day)[k].endTime)
  {
    var slots := DaySlots(day);
    ScheduleTimes();
    forall k | 0 <= k < |slots|
      ensures LexLess(slots[k].startTime, slots[k].endTime)
    {
      if day == Some(1) || day == Some(5) {
        assert k == 0 || k == 1;
      } else {
        assert k == 0;
      }
    }
  }

  /** Within a day the slots are in order of start, and none overlaps the next. */
  lemma SlotsInOrder(day: Option<int>)
    ensures forall i, j :: 0 <= i < j < |DaySlots(day)| ==>
      && LexLess(DaySlots(day)[i].startTime, DaySlots(day)[j].startTime)
      && LexAtMost(DaySlots(day)[i].endTime, DaySlots(day)[j].startTime)
  {
    ScheduleTimes();
  }

  /** Every event starts before it ends, comparing the zero-padded "HH:MM" strings. */
  lemma StartsBeforeItEnds(dateStr: string, day: Option<int>)
    ensures forall e :: e in EventsForDate(dateStr, day) ==> LexLess(e.startTime, e.endTime)
  {
    SlotsStartBeforeTheyEnd(day);
  }

  /** Each day's events are in order of start and none overlaps the next one. */
  lemma ScheduleInOrder(dateStr: string, day: Option<int>)
    ensures forall i, j :: 0 <= i < j < |EventsForDate(dateStr, day)| ==>
      && LexLess(EventsForDate(dateStr, day)[i].startTime, EventsForDate(dateStr, day)[j].startTime)
      && LexAtMost(EventsForDate(dateStr, day)[i].endTime, EventsForDate(dateStr, day)[j].startTime)
  {
    SlotsInOrder(day);
  }

  /** The events of one day have different ids. */
  lemma IdsAreDistinct(dateStr: string, day: Option<int>)
    ensures forall i, j :: 0 <= i < j < |EventsForDate(dateStr, day)| ==>
      EventsForDate(dateStr, day)[i].id != EventsForDate(dateStr, day)[j].id
  {
    var events := EventsForDate(dateStr, day);
    if |events| == 2 {
      var a, b := EventId(dateStr, 1), EventId(dateStr, 2);
      assert a[|a| - 1] == '1' && b[|b| - 1] == '2';
    }
  }

  /**
   * `GET`: the `date` query parameter when it is non-empty, otherwise today's
   * date; `today` is `new Date().toISOString().split("T")[0]`, and `dayOf`
   * the day of the week of the date used.
   */
  function Get(dateParam: Option<string>, today: string, dayOf: Option<int>): (events: seq<Event>)
    ensures dateParam.Some? && dateParam.value != "" ==> events == EventsForDate(dateParam.value, dayOf)
    ensures !(dateParam.Some? && dateParam.value != "") ==> events == EventsForDate(today, dayOf)
  {
    var dateStr := if dateParam.Some? && dateParam.value != "" then dateParam.value else today;
    EventsForDate(dateStr, dayOf)
  }
}
