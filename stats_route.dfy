/**
 * `GET /api/dashboard/stats`: mock occupancy figures that depend on the day
 * of the week and the hour, both taken from the clock at request time and
 * passed in here.
 */
module StatsRoute {

  datatype DashboardStats = DashboardStats(
    workstationsAvailable: int, workstationsTotal: int,
    meetingRoomsAvailable: int, meetingRoomsTotal: int,
    upcomingEvents: int)

  const WorkstationsTotal: int := 50
  const MeetingRoomsTotal: int := 8

  /** Figures before the hour is taken into account: available workstations, free rooms, events. */
  datatype Baseline = Baseline(workstations: int, meetingRooms: int, events: int)

  /** The day's baseline, by `getDay()` (0 is Sunday). */
  function DayBaseline(day: int): (b: Baseline)
    ensures day == 0 || day == 6 ==> b == Baseline(48, 7, 1)
    ensures day == 1 ==> b == Baseline(35, 3, 5)
    ensures day == 5 ==> b == Baseline(45, 6, 2)
    ensures day !in {0, 1, 5, 6} ==> b == Baseline(42, 5, 3)
  {
    if day == 0 || day == 6 then Baseline(48, 7, 1)
    else if day == 1 then Baseline(35, 3, 5)
    else if day == 5 then Baseline(45, 6, 2)
    else Baseline(42, 5, 3)
  }

  /** The extra workstations and rooms the hour adds, before clamping to the totals. */
  function HourBonus(hour: int): (bonus: (int, int))
    ensures hour < 9 ==> bonus == (10, 2)
    ensures 12 <= hour < 14 ==> bonus == (0, 1)
    ensures hour >= 17 ==> bonus == (8, 2)
    ensures 9 <= hour < 12 || 14 <= hour < 17 ==> bonus == (0, 0)
  {
    if hour < 9 then (10, 2)
    else if 12 <= hour < 14 then (0, 1)
    else if hour >= 17 then (8, 2)
    else (0, 0)
  }

  function Min(a: int, b: int): int {
    if a <= b then a else b
  }

  /** The figures for a day and an hour: the baseline plus the hour's bonus, each capped at its total. */
  function DynamicStats(day: int, hour: int): DashboardStats {
    var b := DayBaseline(day);
    var (extraSeats, extraRooms) := HourBonus(hour);
    DashboardStats(
      Min(b.workstations + extraSeats, WorkstationsTotal), WorkstationsTotal,
      Min(b.meetingRooms + extraRooms, MeetingRoomsTotal), MeetingRoomsTotal,
      b.events)
  }

  /**
   * `generateDynamicStats()`: start from the weekday figures, overwrite them
   * by day, then add the hour's bonus with `Math.min` against the totals.
   */
  method GenerateDynamicStats(day: int, hour: int) returns (stats: DashboardStats)
    ensures stats == DynamicStats(day, hour)
    ensures stats.workstationsTotal == 50 && stats.meetingRoomsTotal == 8
    ensures stats.workstationsAvailable <= stats.workstationsTotal
    ensures stats.meetingRoomsAvailable <= stats.meetingRoomsTotal
  {
    var seats, seatsTotal := 42, 50;
    var rooms, roomsTotal := 5, 8;
    var upcoming := 3;
    if day == 0 || day == 6 {
      seats, rooms, upcoming := 48, 7, 1;
    } else if day == 1 {
      seats, rooms, upcoming := 35, 3, 5;
    } else if day == 5 {
      seats, rooms, upcoming := 45, 6, 2;
    }
    if hour < 9 {
      seats := Min(seats + 10, seatsTotal);
      rooms := Min(rooms + 2, roomsTotal);
    } else if hour >= 12 && hour < 14 {
      rooms := Min(rooms + 1, roomsTotal);
    } else if hour >= 17 {
      seats := Min(seats + 8, seatsTotal);
      rooms := Min(rooms + 2, roomsTotal);
    }
    stats := DashboardStats(seats, seatsTotal, rooms, roomsTotal, upcoming);
  }

  /** Availability stays between the day's baseline and the total, whatever the hour. */
  lemma AvailabilityBounds(day: int, hour: int)
    ensures DayBaseline(day).workstations <= DynamicStats(day, hour).workstationsAvailable <= WorkstationsTotal
    ensures DayBaseline(day).meetingRooms <= DynamicStats(day, hour).meetingRoomsAvailable <= MeetingRoomsTotal
  {
  }

  /** The number of upcoming events depends on the day only. */
  lemma UpcomingIgnoresHour(day: int, h1: int, h2: int)
    ensures DynamicStats(day, h1).upcomingEvents == DynamicStats(day, h2).upcomingEvents == DayBaseline(day).events
  {
  }

  /** Outside the adjusted hours the figures are the day's baseline. */
  lemma QuietHoursKeepBaseline(day: int, hour: int)
    requires 9 <= hour < 12 || 14 <= hour < 17
    ensures DynamicStats(day, hour).workstationsAvailable == DayBaseline(day).workstations
    ensures DynamicStats(day, hour).meetingRoomsAvailable == DayBaseline(day).meetingRooms
  {
  }

  /** Where the cap bites: on a weekend the early and evening bonuses reach both totals. */
  lemma WeekendBonusesAreCapped(day: int, hour: int)
    requires (day == 0 || day == 6) && (hour < 9 || hour >= 17)
    ensures DynamicStats(day, hour).workstationsAvailable == WorkstationsTotal
    ensures DynamicStats(day, hour).meetingRoomsAvailable == MeetingRoomsTotal
  {
  }
}
