/**
 * The dashboard's landing panel: a greeting by hour, a weekend marker, the
 * occupancy figures with their percentages, and today's events.
 */
module DashboardContent {
  import opened Options
  import opened JsValues
  import opened Http

  const GoodMorning: string := "Good morning"
  const GoodAfternoon: string := "Good afternoon"
  const GoodEvening: string := "Good evening"
  const LoadFailed: string := "Failed to load dashboard data. Please try again later."

  /** `getGreeting()` for the hour of the current date. */
  function Greeting(hour: int): (g: string)
    ensures g == GoodMorning <==> hour < 12
    ensures g == GoodAfternoon <==> 12 <= hour < 18
    ensures g == GoodEvening <==> hour >= 18
  {
    if hour < 12 then GoodMorning else if hour < 18 then GoodAfternoon else GoodEvening
  }

  /** The position of a greeting in the day. */
  function GreetingRank(g: string): nat {
    if g == GoodMorning then 0 else if g == GoodAfternoon then 1 else 2
  }

  /** The greeting never goes back to an earlier one as the hour advances. */
  lemma GreetingFollowsTheDay(h1: int, h2: int)
    requires h1 <= h2
    ensures GreetingRank(Greeting(h1)) <= GreetingRank(Greeting(h2))
  {
  }

  /** `[0, 6].includes(day)` for `getDay()`, 0 being Sunday. */
  predicate IsWeekend(day: int) {
    day in [0, 6]
  }

  lemma WeekendDays(day: int)
    ensures IsWeekend(day) <==> day == 0 || day == 6
  {
    assert [0, 6][0] == 0 && [0, 6][1] == 6;
  }

  /** The `stats` state, each figure as the fallback produced it. */
  datatype Stats = Stats(
    workstationsAvailable: JsValue, workstationsTotal: JsValue,
    meetingRoomsAvailable: JsValue, meetingRoomsTotal: JsValue,
    upcomingEvents: JsValue)

  const NoStats: Stats := Stats(Num(0), Num(0), Num(0), Num(0), Num(0))

  /** `data[key] || 0` */
  function FigureOrZero(data: JsValue, key: string): (r: JsValue)
    requires !Nullish(data)
    ensures Truthy(Prop(data, key)) ==> r == Prop(data, key)
    ensures !Truthy(Prop(data, key)) ==> r == Num(0)
  {
    Or(Prop(data, key), Num(0))
  }

  /** The stats built from the homescreen data. */
  function StatsFrom(data: JsValue): (s: Stats)
    requires !Nullish(data)
    ensures s.workstationsAvailable == FigureOrZero(data, "availableWorkstations")
    ensures s.workstationsTotal == FigureOrZero(data, "totalWorkstations")
    ensures s.meetingRoomsAvailable == FigureOrZero(data, "availableMeetingRooms")
    ensures s.meetingRoomsTotal == FigureOrZero(data, "totalMeetingRooms")
    ensures s.upcomingEvents == FigureOrZero(data, "upcomingEventsCount")
  {
    Stats(
      FigureOrZero(data, "availableWorkstations"), FigureOrZero(data, "totalWorkstations"),
      FigureOrZero(data, "availableMeetingRooms"), FigureOrZero(data, "totalMeetingRooms"),
      FigureOrZero(data, "upcomingEventsCount"))
  }

  /** A homescreen record without any of the figures shows zero everywhere. */
  lemma MissingFiguresAreZero(fields: map<string, JsValue>)
    requires forall k :: k in fields ==> !Truthy(fields[k])
    ensures StatsFrom(Obj(fields)) == NoStats
  {
  }

  /** The name the greeting uses: `user.first_name || "User"` when `user` is set, else unchanged. */
  function UserNameFrom(data: JsValue, current: JsValue): (name: JsValue)
    requires !Nullish(data)
    ensures !Truthy(Prop(data, "user")) ==> name == current
    ensures Truthy(Prop(data, "user")) && !Truthy(Prop(Prop(data, "user"), "first_name")) ==> name == Str("User")
    ensures Truthy(Prop(data, "user")) && Truthy(Prop(Prop(data, "user"), "first_name")) ==>
      name == Prop(Prop(data, "user"), "first_name")
  {
    var user := Prop(data, "user");
    if Truthy(user) then Or(Prop(user, "first_name"), Str("User")) else current
  }

  datatype Event = Event(id: JsValue, name: JsValue, description: JsValue, date: JsValue, startTime: JsValue, endTime: JsValue)

  /** The event row for one record: `start_time` and `end_time` become `startTime` and `endTime`. */
  function EventFrom(e: JsValue): (ev: Event)
    requires !Nullish(e)
    ensures ev.startTime == Prop(e, "start_time") && ev.endTime == Prop(e, "end_time")
    ensures ev.id == Prop(e, "id") && ev.name == Prop(e, "name")
    ensures ev.description == Prop(e, "description") && ev.date == Prop(e, "date")
  {
    Event(Prop(e, "id"), Prop(e, "name"), Prop(e, "description"), Prop(e, "date"), Prop(e, "start_time"), Prop(e, "end_time"))
  }

  /** `eventsData.map(...)`: None when the data is not an array or holds a null record. */
  function EventsFrom(data: JsValue): (r: Option<seq<Event>>)
    ensures r.Some? <==> data.Arr? && forall i :: 0 <= i < |data.items| ==> !Nullish(data.items[i])
    ensures r.Some? ==> |r.value| == |data.items|
    ensures r.Some? ==> forall i :: 0 <= i < |r.value| ==> r.value[i] == EventFrom(data.items[i])
  {
    if data.Arr? && forall i :: 0 <= i < |data.items| ==> !Nullish(data.items[i]) then
      Some(seq(|data.items|, i requires 0 <= i < |data.items| => EventFrom(data.items[i])))
    else None
  }

  /**
   * The percentage shown under a figure: `Math.round(available / total * 100)`
   * when the total is positive, otherwise 0. `Math.round` rounds halves up,
   * which on exact quotients is the floor of `100 * available / total + 1/2`.
   */
  function PercentAvailable(available: int, total: int): (p: int)
    ensures total <= 0 ==> p == 0
    ensures total > 0 ==> 2 * total * p <= 200 * available + total < 2 * total * (p + 1)
  {
    if total > 0 then (200 * available + total) / (2 * total) else 0
  }

  /** A positive factor can be cancelled from a strict inequality. */
  lemma CancelPositiveFactor(k: int, x: int, y: int)
    requires k > 0 && k * x < k * y
    ensures x < y
  {
    assert k * y - k * x == k * (y - x);
  }

  /** With a count between 0 and the total, the percentage lies between 0 and 100. */
  lemma PercentWithinBounds(available: int, total: int)
    requires 0 <= available <= total
    ensures 0 <= PercentAvailable(available, total) <= 100
    ensures available == total && total > 0 ==> PercentAvailable(available, total) == 100
  {
    if total > 0 {
      var p := PercentAvailable(available, total);
      assert 2 * total * p < 2 * total * 101;
      CancelPositiveFactor(2 * total, p, 101);
      assert 2 * total * (-1) < 2 * total * (p + 1);
      CancelPositiveFactor(2 * total, -1, p + 1);
      if available == total {
        assert 2 * total * 99 < 2 * total * p;
        CancelPositiveFactor(2 * total, 99, p);
      }
    }
  }

  /** The caption under the upcoming events count. */
  function UpcomingCaption(count: int): (c: string)
    ensures c == "Check your calendar" <==> count > 0
    ensures c == "No upcoming events" <==> count <= 0
  {
    if count > 0 then "Check your calendar" else "No upcoming events"
  }

  /** The dashboard component's state. */
  class Dashboard {
    var stats: Stats
    var todaysEvents: seq<Event>
    var isLoading: bool
    var error: string
    var userName: JsValue

    constructor ()
      ensures stats == NoStats && todaysEvents == [] && isLoading && error == "" && userName == Str("")
    {
      stats := NoStats;
      todaysEvents := [];
      isLoading := true;
      error := "";
      userName := Str("");
    }

    /**
     * `fetchDashboardData` with the stored token ('' when none); `home` and
     * `events` are what the two API calls yield. The stats are kept even when
     * the events call then fails.
     */
    method FetchDashboardData(token: string, home: ApiReply, events: ApiReply)
      modifies this`stats, this`todaysEvents, this`isLoading, this`error, this`userName
      ensures !isLoading
      ensures token == "" || home.Threw? || Nullish(home.data) ==>
        && error == LoadFailed
        && stats == old(stats) && todaysEvents == old(todaysEvents) && userName == old(userName)
      ensures token != "" && home.Returned? && !Nullish(home.data) ==>
        && userName == UserNameFrom(home.data, old(userName))
        && stats == StatsFrom(home.data)
        && if events.Returned? && EventsFrom(events.data).Some? then
             todaysEvents == EventsFrom(events.data).value && error == old(error)
           else
             todaysEvents == old(todaysEvents) && error == LoadFailed
    {
      isLoading := true;
      if token == "" || home.Threw? || Nullish(home.data) {
        error := LoadFailed;
        isLoading := false;
        return;
      }
      userName := UserNameFrom(home.data, userName);
      stats := StatsFrom(home.data);
      var rows := if events.Returned? then EventsFrom(events.data) else None;
      if rows.Some? {
        todaysEvents := rows.value;
      } else {
        error := LoadFailed;
      }
      isLoading := false;
    }
  }
}
