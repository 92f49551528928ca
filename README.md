# Office space manager: the decision logic of its components and mock routes

The office space manager is a Next.js application for booking meeting rooms,
seats and cafeteria places, and for viewing events and notifications. It keeps
no booking state of its own. Bookings are forwarded to an external backend.
The logic that does live in the repository is small and deterministic:

- the booking forms' validation, payloads and resets;
- the participant list, bounded by the room's capacity;
- the parsing of free-text seat and user lists;
- notification read flags;
- the normalisation of booking, event and floor lists, with their `||` and `??` fallbacks;
- deletion by id;
- the role-based sidebar and its active-path matching;
- the header's initials;
- the dashboard's greeting, figures and percentages;
- the mock generators for statistics, events and seats;
- the placeholder availability rule, the mock login and the CORS middleware.

Each source file is one Dafny module. Component state becomes a class with one
method per handler. Each method states the new state in terms of functions,
and lemmas prove the promised properties of those functions.

Anything that does not belong to the logic is an explicit parameter:

- the clock (day of week, hour, today's date);
- `Math.random` (a sequence of coin flips);
- the parsing of date strings (an optional hour or day, absent when the date is invalid);
- what a network call yields (`Http.Fetched`, `Http.ApiReply`, `Http.ApiOutcome`);
- whether a delete request succeeded.

Parsed JSON is the `JsValues.JsValue` datatype. JavaScript's truthiness, `||`,
`??`, property access, `?.[i]` and `String(v)` are written out as functions on
it. Reading a property of `null` or `undefined` throws a TypeError in the
source. The model gives that case explicitly, usually as `None` or as the
error path of the handler.

Helper modules:

- `Options`: the option type.
- `Text`:
  - decimal printing and its inverse;
  - `String.prototype.trim` and `split` over a set of separator characters;
  - ASCII upper-casing;
  - prefix tests.
- `JsValues`: JavaScript values and their operators.
- `Http`: fetch outcomes and responses.

The code contains no booking engine. There is no interval-overlap check, no
atomic commit, and no booking status or cancellation rule. Bookings are created
by the backend that the routes forward to. Roles other than "Manager" get six
sidebar items: Dashboard, the two shared items, the two user items and
Notifications.

## Model

| member | source | states |
|---|---|---|
| Text.NatToStringRoundTrip | app/api/seats/available/route.ts:7-8 | printing a natural number in decimal and reading the digits back gives the number |
| Text.NatToStringInjective | app/api/seats/available/route.ts:7 | different numbers print differently, which is what makes generated ids distinct |
| Text.IntToStringInjective | app/api/seats/available/route.ts:7-8 | the same for signed integers (the floor number) |
| Text.Trim | components/book-seats-form.tsx:52 | `trim()` gives a string no longer than its input that neither starts nor ends with whitespace |
| Text.TrimStartIsSuffix | components/book-seats-form.tsx:52 | what is left after the leading whitespace goes is a suffix of the input |
| Text.TrimEndIsPrefix | components/book-seats-form.tsx:52 | what is left after the trailing whitespace goes is a prefix of the input |
| Text.TrimIdempotent | components/book-seats-form.tsx:52 | trimming twice is trimming once |
| Text.TrimAllWhitespace | components/book-seats-form.tsx:52-53 | text made only of whitespace trims to "" |
| Text.ToNumberOfIntToString | components/book-meeting-room-form.tsx:72 | `Number` of a printed integer is that integer |
| Text.SplitNoSeparator | components/book-seats-form.tsx:51 | text without a separator splits into itself alone |
| Text.SplitAtSeparator | components/book-seats-form.tsx:51 | splitting at a separator concatenates the splits of the two sides |
| JsValues.OrVersusCoalesce | components/bookings-manager.tsx:59-60 | `a \|\| b` and `a ?? b` differ only when `a` is false, 0 or "" |
| JsValues.Prop | components/bookings-manager.tsx:58-70 | a property present in an object is its value; one missing from an object, or read from a non-object, is undefined |
| JsValues.OptIndex | components/bookings-manager.tsx:64 | `v?.[i]` is undefined on null or undefined; on an array it is element `i`, or undefined past the end |
| JsValues.ToStrOfScalars | components/bookings-manager.tsx:58 | `String(x)` is the identity on strings and prints integers in decimal |
| Http.FailureMessage | components/book-meeting-room-form.tsx:133-134 | `data.message \|\| fallback`: a truthy message printed with `String`, the fallback for a missing or falsy message or a non-object body, and the TypeError for a null body |
| Http.ErrorOf | components/book-meeting-room-form.tsx:138-139 | a network error keeps its own message, and an error response gives the body's message |
| Http.ForwardedHeaders | app/api/bookings/index.ts:16-19 | JSON content type, plus `Authorization` exactly when the caller's header is non-empty |
| MeetingRoomForm.Without | components/book-meeting-room-form.tsx:94 | `filter(u => u !== user)`: the user is gone and nothing new appears |
| MeetingRoomForm.WithoutAbsent | components/book-meeting-room-form.tsx:94 | removing an absent user changes nothing |
| MeetingRoomForm.WithoutAppend | components/book-meeting-room-form.tsx:94 | removal keeps the others in order |
| MeetingRoomForm.WithoutMultiset | components/book-meeting-room-form.tsx:94 | removal drops every occurrence and keeps every other one |
| MeetingRoomForm.WithoutNoDuplicates | components/book-meeting-room-form.tsx:94 | removal keeps a duplicate-free list duplicate-free |
| MeetingRoomForm.ToggledUsers | components/book-meeting-room-form.tsx:92-97 | a selected user is removed by `Without`, which keeps the others in order; an absent one is appended below capacity and refused at capacity |
| MeetingRoomForm.ToggleKeepsBoundAndDistinct | components/book-meeting-room-form.tsx:92-97 | toggling keeps the list within capacity and free of duplicates |
| MeetingRoomForm.ToggleRoundTrip | components/book-meeting-room-form.tsx:94-96 | adding an absent user and toggling it again restores the list |
| MeetingRoomForm.CapacityError | components/book-meeting-room-form.tsx:99 | the message names the capacity in decimal |
| MeetingRoomForm.FindRoom | components/book-meeting-room-form.tsx:73 | `find` returns a listed room with the id, no earlier room having that id, or nothing when no room has it |
| MeetingRoomForm.RoomFor | components/book-meeting-room-form.tsx:72-73 | a room found is a listed room whose id is `Number(value)`; none is found when the value is not a number or no room has that id |
| MeetingRoomForm.SelectingListedRoom | components/book-meeting-room-form.tsx:70-74 | choosing a listed room's id from the picker finds a room with that id |
| MeetingRoomForm.Form.constructor | components/book-meeting-room-form.tsx:26-68 | the initial state; without a token the login error is set and nothing is loaded |
| MeetingRoomForm.Form.HandleRoomChange | components/book-meeting-room-form.tsx:70-83 | the selection is always stored; the room fields and capacity change only for a listed room; participants are never touched |
| MeetingRoomForm.Form.HandleInputChange | components/book-meeting-room-form.tsx:85-88 | only the named input changes |
| MeetingRoomForm.Form.ToggleUser | components/book-meeting-room-form.tsx:90-103 | the list becomes the toggled list; the capacity error is set exactly when an add is refused; the bound and distinctness are kept |
| MeetingRoomForm.Form.Submit | components/book-meeting-room-form.tsx:105-143 | no token: the error is set and nothing is sent; success clears the date, times, participants and selection but keeps the room |
| MeetingRoomForm.Form.FinishBooking | components/book-meeting-room-form.tsx:124-142 | a successful reply clears the date, times, participants and selection; a failed one sets its error and keeps the form; loading ends either way |
| MeetingRoomForm.Form.CheckAvailability | components/book-meeting-room-form.tsx:145-174 | the query's capacity is the number of participants; the answer picks the success text |
| SeatsForm.ParseList | components/book-seats-form.tsx:50-57 | the parse has no more entries than the split has pieces |
| SeatsForm.CleanPieces | components/book-seats-form.tsx:52-53 | the pieces after `trim` and `filter(Boolean)` are clean entries |
| SeatsForm.CleanPiecesAppend | components/book-seats-form.tsx:52-53 | cleaning keeps the entries in order |
| SeatsForm.CleanPiecesNoneIn | components/book-seats-form.tsx:51-53 | cleaning never introduces a separator |
| SeatsForm.ParsedEntriesAreClean | components/book-seats-form.tsx:50-57 | every parsed entry is non-empty, its own trim and free of `,` and newline |
| SeatsForm.ParseListAtSeparator | components/book-seats-form.tsx:50-53 | parsing at a separator concatenates the parses of the two sides, so order is kept |
| SeatsForm.ParseListSingleEntry | components/book-seats-form.tsx:50-53 | text without a separator parses to its trim, or to nothing when that is blank |
| SeatsForm.BlankParsesEmpty | components/book-seats-form.tsx:51-53 | separators and whitespace alone parse to the empty list |
| SeatsForm.PayloadCapacity | components/book-seats-form.tsx:65 | a non-zero capacity is kept; 0 becomes the larger of the two list lengths |
| SeatsForm.PreviewCapacity | components/book-seats-form.tsx:91 | the preview shows the capacity field itself, so 0 exactly when the field is 0 |
| SeatsForm.PreviewCapacityDiffers | components/book-seats-form.tsx:65-91 | preview and payload disagree on capacity exactly when it is 0 and an entry was typed |
| SeatsForm.Updated | components/book-seats-form.tsx:40 | only the named field changes |
| SeatsForm.Payload | components/book-seats-form.tsx:50-67 | the payload's lists are the parsed texts and its capacity follows the fallback |
| SeatsForm.Preview | components/book-seats-form.tsx:85-93 | the same lists, the `...` and `YYYY-MM-DD` placeholders, and no capacity fallback |
| SeatsForm.PreviewMatchesPayload | components/book-seats-form.tsx:90-92 | preview and payload list the same seats and users |
| SeatsForm.Form.constructor | components/book-seats-form.tsx:12-37 | without a token the error is set and no floors are offered; otherwise floors 1 to 5 |
| SeatsForm.Form.HandleInput | components/book-seats-form.tsx:39-42 | the named field changes and the error is cleared |
| SeatsForm.Form.SetSeatNumbers | components/book-seats-form.tsx:168 | the seat-numbers text becomes the typed text |
| SeatsForm.Form.SetUserTokens | components/book-seats-form.tsx:178 | the user-tokens text becomes the typed text |
| SeatsForm.Form.Submit | components/book-seats-form.tsx:44-82 | no token: "Login required." and nothing sent; success resets the form and both texts; failure keeps them |
| SeatsForm.Form.Complete | components/book-seats-form.tsx:69-81 | a resolved call reports success and resets the form and both texts; a rejected one reports its message or the fallback and keeps them; loading ends either way |
| CafeForm.Updated | components/book-cafe-form.tsx:30-33 | only the named field changes |
| CafeForm.AvailabilityGate | components/book-cafe-form.tsx:72-79 | missing fields are reported first, then a missing token; the check proceeds exactly when both are present |
| CafeForm.SubmitGate | components/book-cafe-form.tsx:37-40 | submitting is refused exactly when the token is empty |
| CafeForm.SubmitIsLaxerThanCheck | components/book-cafe-form.tsx:35-79 | whatever the check accepts, submit accepts; with a token and a missing field, submit proceeds but the check does not |
| CafeForm.Form.constructor | components/book-cafe-form.tsx:18-28 | empty fields and the stored token |
| CafeForm.Form.HandleChange | components/book-cafe-form.tsx:30-33 | the form becomes the updated form |
| CafeForm.Form.Submit | components/book-cafe-form.tsx:35-69 | no token: the error only; success resets the three fields; failure reports the error |
| CafeForm.Form.CheckAvailability | components/book-cafe-form.tsx:71-107 | nothing is sent exactly when the gate refuses; success shows the available seats |
| Notifications.Initialized | components/notifications-list.tsx:54 | every loaded notification is unread, with nothing else changed |
| Notifications.MarkAsRead | components/notifications-list.tsx:66-70 | exactly the entries with the id become read; length and order are kept |
| Notifications.MarkAllAsRead | components/notifications-list.tsx:72-74 | every entry becomes read, with nothing else changed |
| Notifications.UnreadCount | components/notifications-list.tsx:84 | the count is at most the length |
| Notifications.UnreadCountOfOne | components/notifications-list.tsx:84 | one entry counts 1 when unread and 0 when read |
| Notifications.UnreadCountAppend | components/notifications-list.tsx:84 | the count of a concatenation is the sum of the counts, so the count is the number of unread entries |
| Notifications.UnreadCountMonotone | components/notifications-list.tsx:84 | reading more entries never raises the count |
| Notifications.UnreadCountAllRead | components/notifications-list.tsx:84 | all read: the count is 0 |
| Notifications.UnreadCountNoneRead | components/notifications-list.tsx:84 | none read: the count is the length |
| Notifications.LoadedAllUnread | components/notifications-list.tsx:54-84 | after loading, the unread count is the number loaded |
| Notifications.MarkAllLeavesNoneUnread | components/notifications-list.tsx:72-84 | after marking all, nothing is unread |
| Notifications.MarkAsReadNeverRaisesUnread | components/notifications-list.tsx:66-84 | marking one never raises the count |
| Notifications.MarkAllNeverRaisesUnread | components/notifications-list.tsx:72-84 | marking all never raises the count |
| Notifications.MarkAsReadUnknownId | components/notifications-list.tsx:68 | an unknown id leaves the list unchanged |
| Notifications.MarkingIsIdempotent | components/notifications-list.tsx:66-74 | marking twice is marking once, for one and for all |
| Notifications.NotificationsList.Unread | components/notifications-list.tsx:84 | `unreadCount` is UnreadCount of the list state, at most its length |
| Notifications.NotificationsList.constructor | components/notifications-list.tsx:20-23 | the initial state, loading |
| Notifications.NotificationsList.Load | components/notifications-list.tsx:25-64 | no token: the login error, no fetch; an ok list is stored unread; anything else sets the load error |
| Notifications.NotificationsList.MarkOneRead | components/notifications-list.tsx:66-70 | the list is marked and the unread count does not rise |
| Notifications.NotificationsList.MarkAllRead | components/notifications-list.tsx:72-74 | the list is marked and nothing is unread |
| BookingsManager.Detail | components/bookings-manager.tsx:64 | `item.details?.[k]` is element `k` of the details array, and undefined past its end or when there are no details |
| BookingsManager.MapItem | components/bookings-manager.tsx:57-71 | the id printed with `String`, amenity by `\|\|`, date by `??`; nothing for a null record |
| BookingsManager.TimeFallbackChain | components/bookings-manager.tsx:61-70 | each time is the first non-nullish of the camelCase field, the snake_case field and the detail, else "" |
| BookingsManager.EmptyStringFallbacks | components/bookings-manager.tsx:59-60 | an empty amenity falls back to the room name; an empty date stays empty |
| BookingsManager.MapBookings | components/bookings-manager.tsx:55-72 | an array without null records maps element by element, keeping length and order |
| BookingsManager.WithoutId | components/bookings-manager.tsx:104 | the bookings with the id are gone and all others remain |
| BookingsManager.WithoutIdAppend | components/bookings-manager.tsx:104 | deletion keeps the rest in order |
| BookingsManager.WithoutAbsentId | components/bookings-manager.tsx:104 | deleting an absent id changes nothing |
| BookingsManager.OnlyTheManagerString | components/bookings-manager.tsx:83 | actions are shown exactly for the string "Manager", never for a null role |
| BookingsManager.Manager.ShowsActions | components/bookings-manager.tsx:83 | the actions column is shown exactly when the role is the string "Manager", never for a null role |
| BookingsManager.Manager.constructor | components/bookings-manager.tsx:34-38 | the initial state, loading, with a null role |
| BookingsManager.Manager.Load | components/bookings-manager.tsx:40-81 | a failed role request gives a null role; the list is mapped, or the load error is set |
| BookingsManager.Manager.AskDelete | components/bookings-manager.tsx:162 | the booking becomes pending |
| BookingsManager.Manager.CancelDelete | components/bookings-manager.tsx:179 | nothing is pending |
| BookingsManager.Manager.DoDelete | components/bookings-manager.tsx:93-113 | nothing pending: no change; otherwise the pending id is removed on success, and the pending booking is cleared either way |
| EventsList.TransformEvent | components/events-list.tsx:38-43 | `event_name` becomes `name`; the id, description and date are copied |
| EventsList.TransformAll | components/events-list.tsx:37-44 | an array without null records maps element by element through TransformEvent, keeping length and order; anything else throws |
| EventsList.WithoutEvent | components/events-list.tsx:65 | the events with the id are gone and all others remain |
| EventsList.WithoutEventAppend | components/events-list.tsx:65 | deletion keeps the rest in order |
| EventsList.RoleFrom | components/events-list.tsx:35 | the role becomes `role.name` exactly when the user has a truthy role; otherwise it is unchanged |
| EventsList.List.ShowsActions | components/events-list.tsx:98 | the actions column is shown exactly when the role is the string "Manager", never for a null or undefined role |
| EventsList.List.constructor | components/events-list.tsx:20-25 | the initial state, loading, with the role "" |
| EventsList.List.FetchData | components/events-list.tsx:28-51 | no token or a failed user call: the load error; otherwise the role, then the events or the load error |
| EventsList.List.HandleDelete | components/events-list.tsx:55-58 | the event is selected and the dialog opens |
| EventsList.List.ConfirmDelete | components/events-list.tsx:60-72 | nothing selected: no change; success removes the id, failure sets the error; the dialog closes either way |
| Sidebar.NavItems | components/sidebar.tsx:53-82 | the Manager gets all six groups in order; every other role gets four of them |
| Sidebar.NavItemCounts | components/sidebar.tsx:77-80 | eight items for the Manager, six otherwise, and no create-events or meeting-room item otherwise |
| Sidebar.NonManagerItemsAreSubsequence | components/sidebar.tsx:78-80 | the other roles' menu is a subsequence of the Manager's |
| Sidebar.FirstAndLastItems | components/sidebar.tsx:54-80 | Dashboard comes first and Notifications last, for every role |
| Sidebar.PathsAreDistinct | components/sidebar.tsx:103-105 | the paths used as keys are distinct |
| Sidebar.IsActive | components/sidebar.tsx:84-89 | the Dashboard link is active exactly at "/dashboard"; any other link exactly when its path is a prefix of the pathname |
| Sidebar.DashboardActiveOnlyThere | components/sidebar.tsx:85-86 | Dashboard is active only at exactly "/dashboard" |
| Sidebar.ItemActiveBelowItsPath | components/sidebar.tsx:88 | any other item is active on its path and below it |
| Sidebar.NavItemsPrefixFree | components/sidebar.tsx:53-88 | apart from the dashboard, no item's path is a prefix of another's |
| Sidebar.AtMostOneActive | components/sidebar.tsx:84-107 | for every pathname at most one item of the menu is highlighted |
| Header.FirstChars | components/header.tsx:27-29 | at most one character per word, and every non-empty word's first character appears |
| Header.FirstCharsOfOneWord | components/header.tsx:28-29 | one word gives its first character, an empty word nothing; with FirstCharsAppend this fixes the result in order |
| Header.FirstCharsAppend | components/header.tsx:27-29 | each word contributes independently, in order |
| Header.DeriveInitials | components/header.tsx:26-31 | at most two characters, a prefix of the upper-cased first characters |
| Header.TwoWordInitials | components/header.tsx:26-31 | "first last" gives the two upper-cased initials |
| Header.LeadingSpaceIgnored | components/header.tsx:27-29 | a leading space contributes nothing |
| Header.UserFromBody | components/header.tsx:21-38 | a user is produced unless the body is null or the name that would be split is truthy and not a string; truthy initials are kept; otherwise they are derived from a string name; missing fields become "" |
| Header.Header.constructor | components/header.tsx:12-13 | the empty user, loading |
| Header.Header.FetchUserData | components/header.tsx:17-45 | an ok response sets the user; anything else keeps it; loading stops |
| DashboardContent.Greeting | components/dashboard-content.tsx:102-107 | morning before 12, afternoon before 18, evening after, each as an if-and-only-if |
| DashboardContent.GreetingFollowsTheDay | components/dashboard-content.tsx:102-107 | the greeting never goes back as the hour advances |
| DashboardContent.WeekendDays | components/dashboard-content.tsx:114 | weekend exactly on days 0 and 6 |
| DashboardContent.FigureOrZero | components/dashboard-content.tsx:58 | a truthy figure is kept; anything falsy becomes 0 |
| DashboardContent.StatsFrom | components/dashboard-content.tsx:56-66 | every figure is read with its zero fallback |
| DashboardContent.MissingFiguresAreZero | components/dashboard-content.tsx:56-66 | a record without figures gives zero everywhere |
| DashboardContent.UserNameFrom | components/dashboard-content.tsx:51-53 | `first_name`, or "User" when that is falsy; unchanged without a user |
| DashboardContent.EventFrom | components/dashboard-content.tsx:73-80 | `start_time` and `end_time` become `startTime` and `endTime` |
| DashboardContent.EventsFrom | components/dashboard-content.tsx:73-82 | an array without null records maps element by element, keeping length and order |
| DashboardContent.PercentAvailable | components/dashboard-content.tsx:148-150 | 0 when the total is 0; otherwise the percentage rounded half up |
| DashboardContent.PercentWithinBounds | components/dashboard-content.tsx:148-150 | a count within its total shows 0 to 100 percent, and 100 when full |
| DashboardContent.UpcomingCaption | components/dashboard-content.tsx:180 | "Check your calendar" exactly when the count is positive |
| DashboardContent.Dashboard.constructor | components/dashboard-content.tsx:24-34 | zero figures, no events, loading |
| DashboardContent.Dashboard.FetchDashboardData | components/dashboard-content.tsx:38-89 | no token or a failed call: the load error; otherwise the name and figures, then the events or the load error |
| StatsRoute.DayBaseline | app/api/dashboard/stats/route.ts:11-33 | weekend 48/7/1, Monday 35/3/5, Friday 45/6/2, other days 42/5/3 |
| StatsRoute.HourBonus | app/api/dashboard/stats/route.ts:36-47 | +10/+2 before 9, +0/+1 from 12 to 14, +8/+2 from 17, nothing otherwise |
| StatsRoute.GenerateDynamicStats | app/api/dashboard/stats/route.ts:5-50 | the figures for the day and hour; totals 50 and 8; available never above total |
| StatsRoute.AvailabilityBounds | app/api/dashboard/stats/route.ts:36-47 | availability lies between the day's baseline and the total |
| StatsRoute.UpcomingIgnoresHour | app/api/dashboard/stats/route.ts:14-33 | the event count depends on the day only |
| StatsRoute.QuietHoursKeepBaseline | app/api/dashboard/stats/route.ts:36-47 | outside the adjusted hours the baseline stands |
| StatsRoute.WeekendBonusesAreCapped | app/api/dashboard/stats/route.ts:18-46 | on a weekend before 9 or from 17, available workstations equal the total of 50 and available meeting rooms the total of 8. |
| EventsTodayRoute.DaySlots | app/api/events/today/route.ts:6-78 | two slots on Monday and Friday, none at the weekend, one on every other day and on an unparsable date |
| EventsTodayRoute.EventsForDate | app/api/events/today/route.ts:5-78 | one event per slot of the day, in order, each carrying the date and an id numbered from 1 |
| EventsTodayRoute.SlotsStartBeforeTheyEnd | app/api/events/today/route.ts:10-77 | every slot's start time is before its end time |
| EventsTodayRoute.SlotsInOrder | app/api/events/today/route.ts:10-61 | a day's slots are sorted by start and each ends no later than the next starts |
| EventsTodayRoute.StartsBeforeItEnds | app/api/events/today/route.ts:10-77 | every event starts before it ends |
| EventsTodayRoute.ScheduleInOrder | app/api/events/today/route.ts:10-61 | each day's events are sorted by start and do not overlap |
| EventsTodayRoute.IdsAreDistinct | app/api/events/today/route.ts:10-61 | each day's ids are distinct |
| EventsTodayRoute.Get | app/api/events/today/route.ts:80-92 | the date parameter when non-empty, otherwise today's date |
| SeatsRoute.RowLetter | app/api/seats/available/route.ts:8 | the letter's code is 65 plus the row number |
| SeatsRoute.SeatNo | app/api/seats/available/route.ts:8 | floor, row letter and the position 1 to 10 within the row |
| SeatsRoute.GenerateMockSeats | app/api/seats/available/route.ts:5-12 | exactly `count` seats, seat `i` with its id, number, floor and coin flip |
| SeatsRoute.SeatIdInjective | app/api/seats/available/route.ts:7 | the id determines the position |
| SeatsRoute.SeatNoInjective | app/api/seats/available/route.ts:8 | the seat number determines the position |
| SeatsRoute.SeatNoParts | app/api/seats/available/route.ts:8 | the number within a row is 1 to 10; with twenty seats the row is A or B |
| SeatsRoute.GeneratedSeatsDistinct | app/api/seats/available/route.ts:6-8 | ids and seat numbers are distinct within one call |
| SeatsRoute.AvailableOnly | app/api/seats/available/route.ts:21 | exactly the available seats are kept |
| SeatsRoute.AvailableOnlyAppend | app/api/seats/available/route.ts:21 | the filter keeps the generated order |
| SeatsRoute.Get | app/api/seats/available/route.ts:14-24 | the available generated seats in generated order: at most twenty, on the floor, every available seat included and nothing else |
| SeatsRoute.GetIgnoresDate | app/api/seats/available/route.ts:17-21 | the date does not change the answer |
| AvailabilityRoute.Verdict | app/api/bookings/meetingroom/availability/route.ts:13-20 | the flag and the matching message |
| AvailabilityRoute.Post | app/api/bookings/meetingroom/availability/route.ts:4-27 | 500 with `success:false` when the body is unreadable; otherwise 200 with the verdict |
| AvailabilityRoute.AvailableBeforeFive | app/api/bookings/meetingroom/availability/route.ts:12-19 | available exactly before 17:00, with the "is available" text exactly then |
| AvailabilityRoute.OnlyStartHourMatters | app/api/bookings/meetingroom/availability/route.ts:12-13 | no other body field changes the answer |
| BookingsIndex.RowFrom | app/api/bookings/index.ts:23-29 | the id printed with `String`, the amenity and date copied, the times from `details` or "" |
| BookingsIndex.MissingDetailsGiveEmptyTimes | app/api/bookings/index.ts:27-28 | no details, or empty ones, give empty times |
| BookingsIndex.Rows | app/api/bookings/index.ts:22-30 | a non-array gives []; an array without null records maps element by element |
| BookingsIndex.RowJson | app/api/bookings/index.ts:23-32 | the serialised row has the row's values under its five keys and nothing else, and omits the undefined fields |
| BookingsIndex.RowsJson | app/api/bookings/index.ts:32 | the rows are serialised in order |
| BookingsIndex.Handle | app/api/bookings/index.ts:6-43 | any other method: 405 with `Allow: GET`; GET: the backend's status with the rows, or 500 with the error |
| BookingsIndex.StatusPassesThrough | app/api/bookings/index.ts:22-32 | a non-array body gives [] with the backend's status |
| FloorsRoute.FloorNumberOf | app/api/floors/route.ts:30 | `floor_number`, falling back to `floorNumber` only when it is null or undefined |
| FloorsRoute.TruthyOnly | app/api/floors/route.ts:30 | `filter(Boolean)` keeps exactly the truthy values |
| FloorsRoute.TruthyOnlyAppend | app/api/floors/route.ts:30 | the filter keeps the order |
| FloorsRoute.Floors | app/api/floors/route.ts:21-32 | a non-array gives []; a leading number passes the array through; otherwise the mapped and filtered numbers |
| FloorsRoute.NormalisedFloorsAreTruthy | app/api/floors/route.ts:30 | the normalised floors are truthy, come from elements, and are no more than the elements |
| FloorsRoute.LeadingNumberPassesThrough | app/api/floors/route.ts:26-27 | a leading number passes even non-numbers through |
| FloorsRoute.EmptyArrayStaysEmpty | app/api/floors/route.ts:24-30 | an empty array gives [] |
| FloorsRoute.ZeroFloorIsDropped | app/api/floors/route.ts:30 | a floor number 0 is dropped, not replaced by the fallback |
| FloorsRoute.CatchMessage | app/api/floors/route.ts:38 | the error's message, or the fallback text when it is empty |
| FloorsRoute.Get | app/api/floors/route.ts:7-42 | the backend's status with the floors, or 500 with `success:false` |
| LoginRoute.Post | app/api/auth/login/route.ts:4-29 | 500 when the body is unreadable; 200 with the fixed Manager user for the exact credentials; 401 otherwise |
| LoginRoute.OnlyExactCredentials | app/api/auth/login/route.ts:11-25 | a body logs in exactly when its email and password are the two expected strings |
| LoginRoute.NoNormalisation | app/api/auth/login/route.ts:11 | comparison is case-sensitive and untrimmed |
| Middleware.Handle | middleware.ts:4-30 | `/api/` paths get the three CORS headers, and OPTIONS is answered 200; other paths pass with no headers |
| Middleware.BareApiIsNotApi | middleware.ts:9 | "/api" without the slash is not an API path |

## Left out

- Network I/O, `localStorage`, the router and `window.location`. The outcome of each request is a parameter.
- React effects, `async`/`await`, `Promise.all`, `setInterval`, rendering, and the toast calls.
- `toast` is not imported in components/bookings-manager.tsx. Its calls throw after the state updates they follow, so they change no modelled state.
- The meeting-room form's fetch of rooms and users at mount. The loaded rooms are a constructor parameter.
- JavaScript `Date`:
  - parsing, time zones and `toISOString` are not modelled;
  - their results (an optional hour, an optional day of the week, an optional ISO string) are parameters;
  - an invalid date is the absent value.
- Floating point:
  - numbers are integers;
  - NaN arises only from invalid dates;
  - DashboardContent.PercentAvailable rounds the exact quotient half up and does not model the float error of `available / total * 100`.
- `Number()` and `parseInt`: only an optional sign followed by decimal digits is read; other forms give no number.
- Upper-casing is ASCII only; Unicode case mapping is not modelled.
- Strings are sequences of Unicode characters, while JavaScript indexes UTF-16 code units. For a character outside the Basic Multilingual Plane, `n[0]` and `substring(0, 2)` in components/header.tsx take one half of a surrogate pair; Header.FirstChars and Header.DeriveInitials take the whole character.
- The exact text of a TypeError is one constant message.
- Objects are compared by value. JavaScript compares the objects of components/bookings-manager.tsx and components/events-list.tsx by reference, but only ids are compared there.
- A response body that is not JSON is a failed request, even where the source does not read it.
- SeatsForm.Form.Submit: when the date is invalid, `toISOString` throws outside the `try`. Nothing is sent and `isLoading` is left as it was, as in the source, but the unhandled rejection itself is not modelled.
- SeatsRoute.GenerateMockSeats: requires at most 552310 seats, so that every row letter is one UTF-16 code unit below the surrogate range; the route asks for 20.
- The `parseInt` of the `floor` query parameter and its NaN case in app/api/seats/available/route.ts. The parsed floor is a parameter.
- Next.js's internal headers on `NextResponse.next()` in middleware.ts, and the `config.matcher`.
- JSON serialisation beyond dropping undefined fields, and `console` logging.
