/**
 * The meeting-room booking form: the room picker, the participant checklist
 * bounded by the room's capacity, the text inputs, and the two requests it
 * sends (the booking and the availability check). The requests' outcomes are
 * parameters; the form's state is a class with one method per handler.
 */
module MeetingRoomForm {
  import opened Options
  import opened JsValues
  import opened Http
  import Text

  datatype Room = Room(roomId: int, roomName: string, floorId: int, capacity: int)

  /** The inputs wired to `handleInputChange`, by their `name` attribute. */
  datatype InputField = DateInput | StartTimeInput | EndTimeInput

  /** The booking request; the date and times are kept as entered (their `Date` conversion is not modelled). */
  datatype BookingPayload = BookingPayload(
    token: string, roomId: int, roomName: string, floorId: int,
    date: string, startTime: string, endTime: string, users: seq<string>, status: bool)

  /** The availability request; `capacity` is the number of selected participants. */
  datatype AvailabilityQuery = AvailabilityQuery(date: string, startTime: string, endTime: string, capacity: int)

  const NotLoggedIn: string := "You must be logged in."
  const LoginToBook: string := "Please log in to book a meeting room."
  const Booked: string := "Meeting room booked successfully!"

  // ---------------------------------------------------------------------
  // Participant list

  /** `users.filter(u => u !== user)` */
  function Without(users: seq<string>, user: string): (r: seq<string>)
    ensures user !in r
    ensures forall v :: v in r ==> v in users
    ensures |r| <= |users|
    decreases |users|
  {
    if users == [] then []
    else if users[0] == user then Without(users[1..], user)
    else [users[0]] + Without(users[1..], user)
  }

  /** Filtering out an absent user changes nothing. */
  lemma {:induction false} WithoutAbsent(users: seq<string>, user: string)
    requires user !in users
    ensures Without(users, user) == users
    decreases |users|
  {
    if users != [] {
      WithoutAbsent(users[1..], user);
    }
  }

  /** Filtering distributes over concatenation, so the kept users stay in their order. */
  lemma {:induction false} WithoutAppend(a: seq<string>, b: seq<string>, user: string)
    ensures Without(a + b, user) == Without(a, user) + Without(b, user)
    decreases |a|
  {
    if a == [] {
      assert a + b == b;
    } else {
      assert (a + b)[0] == a[0] && (a + b)[1..] == a[1..] + b;
      WithoutAppend(a[1..], b, user);
      if a[0] == user {
        assert Without(a + b, user) == Without(a[1..] + b, user);
        assert Without(a, user) == Without(a[1..], user);
      } else {
        assert Without(a + b, user) == [a[0]] + Without(a[1..] + b, user);
        assert Without(a, user) == [a[0]] + Without(a[1..], user);
      }
    }
  }

  /** Exactly the occurrences of `user` go; every other user keeps its multiplicity. */
  lemma {:induction false} WithoutMultiset(users: seq<string>, user: string)
    ensures multiset(Without(users, user)) == multiset(users)[user := 0]
    decreases |users|
  {
    if users != [] {
      WithoutMultiset(users[1..], user);
      assert users == [users[0]] + users[1..];
      assert multiset(users) == multiset{users[0]} + multiset(users[1..]);
    }
  }

  predicate NoDuplicates(users: seq<string>) {
    forall i, j :: 0 <= i < j < |users| ==> users[i] != users[j]
  }

  lemma {:induction false} WithoutNoDuplicates(users: seq<string>, user: string)
    requires NoDuplicates(users)
    ensures NoDuplicates(Without(users, user))
    decreases |users|
  {
    if users != [] {
      var rest := users[1..];
      assert NoDuplicates(rest) by {
        forall i, j | 0 <= i < j < |rest| ensures rest[i] != rest[j] {
          assert rest[i] == users[i + 1] && rest[j] == users[j + 1];
        }
      }
      WithoutNoDuplicates(rest, user);
      if users[0] != user {
        assert users[0] !in rest by {
          forall k | 0 <= k < |rest| ensures rest[k] != users[0] {
            assert rest[k] == users[k + 1];
          }
        }
        var r := Without(users, user);
        assert r == [users[0]] + Without(rest, user);
        forall i, j | 0 <= i < j < |r| ensures r[i] != r[j] {
          if i == 0 {
            assert r[j] in Without(rest, user);
          } else {
            assert r[i] == Without(rest, user)[i - 1] && r[j] == Without(rest, user)[j - 1];
          }
        }
      }
    }
  }

  /**
   * The list after `toggleUser(user)`: a selected user is removed (every
   * occurrence), an absent one is appended while there is room, and otherwise
   * nothing changes.
   */
  function ToggledUsers(users: seq<string>, capacity: int, user: string): (r: seq<string>)
    ensures user in users ==> r == Without(users, user)
    ensures user in users ==> user !in r && multiset(r) == multiset(users)[user := 0]
    ensures user !in users && |users| < capacity ==> r == users + [user]
    ensures user !in users && |users| >= capacity ==> r == users
  {
    if user in users then
      WithoutMultiset(users, user);
      Without(users, user)
    else if |users| < capacity then users + [user]
    else users
  }

  /** Toggling never takes a list within the capacity beyond it, and never creates a duplicate. */
  lemma ToggleKeepsBoundAndDistinct(users: seq<string>, capacity: int, user: string)
    requires |users| <= capacity && NoDuplicates(users)
    ensures |ToggledUsers(users, capacity, user)| <= capacity
    ensures NoDuplicates(ToggledUsers(users, capacity, user))
  {
    if user in users {
      WithoutNoDuplicates(users, user);
    } else if |users| < capacity {
      var r := users + [user];
      forall i, j | 0 <= i < j < |r| ensures r[i] != r[j] {
        if j == |users| {
          assert r[i] in users;
        }
      }
    }
  }

  /** Adding an absent user and toggling it again restores the list. */
  lemma ToggleRoundTrip(users: seq<string>, capacity: int, user: string)
    requires user !in users && |users| < capacity
    ensures ToggledUsers(ToggledUsers(users, capacity, user), capacity, user) == users
  {
    WithoutAppend(users, [user], user);
    WithoutAbsent(users, user);
    assert Without([user], user) == [];
  }

  /** `"Cannot add more than ${capacity} users."` */
  function CapacityError(capacity: int): (m: string)
    ensures m == "Cannot add more than " + Text.IntToString(capacity) + " users."
  {
    "Cannot add more than " + Text.IntToString(capacity) + " users."
  }

  // ---------------------------------------------------------------------
  // Room picker

  /** `rooms.find(r => r.room_id === id)`; an id that is not a number matches nothing. */
  function FindRoom(rooms: seq<Room>, id: Option<int>): (r: Option<Room>)
    ensures r.Some? ==> id.Some? && r.value in rooms && r.value.roomId == id.value
    ensures r.None? ==> id.None? || forall k :: 0 <= k < |rooms| ==> rooms[k].roomId != id.value
    ensures r.Some? ==>
      exists k :: 0 <= k < |rooms| && rooms[k] == r.value && (forall j :: 0 <= j < k ==> rooms[j].roomId != id.value)
    decreases |rooms|
  {
    if id.None? || rooms == [] then None
    else if rooms[0].roomId == id.value then Some(rooms[0])
    else FindRoom(rooms[1..], id)
  }

  /** The room `handleRoomChange(value)` picks: the one whose id is `Number(value)`. */
  function RoomFor(rooms: seq<Room>, value: string): (r: Option<Room>)
    ensures r.Some? ==> r.value in rooms && Text.ToNumber(value) == Some(r.value.roomId)
    ensures r.None? ==>
      (Text.ToNumber(value).None? || forall k :: 0 <= k < |rooms| ==> Some(rooms[k].roomId) != Text.ToNumber(value))
  {
    FindRoom(rooms, Text.ToNumber(value))
  }

  /** The picker's values are the printed room ids, so choosing a listed room finds a room with that id. */
  lemma SelectingListedRoom(rooms: seq<Room>, room: Room)
    requires room in rooms
    ensures RoomFor(rooms, Text.IntToString(room.roomId)).Some?
    ensures RoomFor(rooms, Text.IntToString(room.roomId)).value.roomId == room.roomId
  {
    Text.ToNumberOfIntToString(room.roomId);
  }

  // ---------------------------------------------------------------------
  // Component state

  class Form {
    var selectedRoomId: string
    var roomId: int
    var roomName: string
    var floorId: int
    var date: string
    var startTime: string
    var endTime: string
    var users: seq<string>
    var status: bool
    var rooms: seq<Room>
    var token: string
    var capacity: int
    var isLoading: bool
    var error: string
    var success: string

    /** The state after mounting with the stored token `jwt`; `loadedRooms` is what the rooms request returned. */
    constructor (jwt: string, loadedRooms: seq<Room>)
      ensures token == jwt
      ensures rooms == (if jwt == "" then [] else loadedRooms)
      ensures error == (if jwt == "" then LoginToBook else "")
      ensures selectedRoomId == "" && roomId == 0 && roomName == "" && floorId == 0
      ensures date == "" && startTime == "" && endTime == "" && users == [] && status
      ensures capacity == 0 && !isLoading && success == ""
    {
      selectedRoomId := "";
      roomId, roomName, floorId := 0, "", 0;
      date, startTime, endTime := "", "", "";
      users := [];
      status := true;
      token := jwt;
      capacity := 0;
      isLoading := false;
      success := "";
      if jwt == "" {
        error := LoginToBook;
        rooms := [];
      } else {
        error := "";
        rooms := loadedRooms;
      }
    }

    /**
     * `handleRoomChange(value)`: the selection always follows `value`; the room
     * fields and the capacity change only when a room has that id. The
     * participants are left alone, so a smaller room can leave more
     * participants than its capacity.
     */
    method HandleRoomChange(value: string)
      modifies this`selectedRoomId, this`roomId, this`roomName, this`floorId, this`capacity
      ensures selectedRoomId == value
      ensures RoomFor(rooms, value).Some? ==>
        && roomId == RoomFor(rooms, value).value.roomId && roomName == RoomFor(rooms, value).value.roomName
        && floorId == RoomFor(rooms, value).value.floorId && capacity == RoomFor(rooms, value).value.capacity
      ensures RoomFor(rooms, value).None? ==>
        roomId == old(roomId) && roomName == old(roomName) && floorId == old(floorId) && capacity == old(capacity)
    {
      selectedRoomId := value;
      var room := RoomFor(rooms, value);
      if room.Some? {
        roomId, roomName, floorId := room.value.roomId, room.value.roomName, room.value.floorId;
        capacity := room.value.capacity;
      }
    }

    /** `handleInputChange`: the named input takes the new value. */
    method HandleInputChange(field: InputField, value: string)
      modifies this`date, this`startTime, this`endTime
      ensures date == (if field == DateInput then value else old(date))
      ensures startTime == (if field == StartTimeInput then value else old(startTime))
      ensures endTime == (if field == EndTimeInput then value else old(endTime))
    {
      match field
      case DateInput => date := value;
      case StartTimeInput => startTime := value;
      case EndTimeInput => endTime := value;
    }

    /**
     * `toggleUser(user)`: the list becomes `ToggledUsers`, and an absent user
     * refused for lack of room sets the capacity error.
     */
    method ToggleUser(user: string)
      modifies this`users, this`error
      ensures users == ToggledUsers(old(users), capacity, user)
      ensures error == (if user !in old(users) && |old(users)| >= capacity then CapacityError(capacity) else old(error))
      ensures |old(users)| <= capacity && NoDuplicates(old(users)) ==> |users| <= capacity && NoDuplicates(users)
    {
      if |users| <= capacity && NoDuplicates(users) {
        ToggleKeepsBoundAndDistinct(users, capacity, user);
      }
      var isSelected := user in users;
      var updated := ToggledUsers(users, capacity, user);
      if !isSelected && |updated| == |users| {
        error := CapacityError(capacity);
      }
      users := updated;
    }

    /**
     * `handleSubmit` with `reply` as the outcome of the booking request. Without
     * a token only the error is set and nothing is sent; a successful booking
     * clears the date, the times, the participants and the selection, and keeps
     * the room fields.
     */
    method Submit(reply: Fetched) returns (sent: Option<BookingPayload>)
      modifies this`error, this`success, this`isLoading, this`date, this`startTime, this`endTime,
        this`users, this`selectedRoomId
      ensures token == "" ==>
        && sent == None && error == NotLoggedIn && success == old(success) && isLoading == old(isLoading)
        && date == old(date) && startTime == old(startTime) && endTime == old(endTime)
        && users == old(users) && selectedRoomId == old(selectedRoomId)
      ensures token != "" ==>
        && !isLoading
        && sent == Some(BookingPayload(token, roomId, roomName, floorId, old(date), old(startTime), old(endTime),
                                       old(users), status))
      ensures token != "" && Succeeded(reply) ==>
        && error == "" && success == Booked
        && date == "" && startTime == "" && endTime == "" && users == [] && selectedRoomId == ""
      ensures token != "" && !Succeeded(reply) ==>
        && error == ErrorOf(reply, "Booking failed") && success == ""
        && date == old(date) && startTime == old(startTime) && endTime == old(endTime)
        && users == old(users) && selectedRoomId == old(selectedRoomId)
    {
      if token == "" {
        error := NotLoggedIn;
        return None;
      }
      sent := Some(BookingPayload(token, roomId, roomName, floorId, date, startTime, endTime, users, status));
      error := "";
      success := "";
      isLoading := true;
      FinishBooking(reply);
    }

    /** What `handleSubmit` does once the booking request has been answered. */
    method FinishBooking(reply: Fetched)
      modifies this`error, this`success, this`isLoading, this`date, this`startTime, this`endTime,
        this`users, this`selectedRoomId
      ensures !isLoading
      ensures Succeeded(reply) ==>
        && error == old(error) && success == Booked
        && date == "" && startTime == "" && endTime == "" && users == [] && selectedRoomId == ""
      ensures !Succeeded(reply) ==>
        && error == ErrorOf(reply, "Booking failed") && success == old(success)
        && date == old(date) && startTime == old(startTime) && endTime == old(endTime)
        && users == old(users) && selectedRoomId == old(selectedRoomId)
    {
      if Succeeded(reply) {
        success := Booked;
        date, startTime, endTime := "", "", "";
        users := [];
        selectedRoomId := "";
      } else {
        error := ErrorOf(reply, "Booking failed");
      }
      isLoading := false;
    }

    /**
     * `checkAvailability` with `reply` as the outcome of the availability
     * request. The request's capacity is the number of selected participants.
     */
    method CheckAvailability(reply: Fetched) returns (sent: Option<AvailabilityQuery>)
      modifies this`error, this`success, this`isLoading
      ensures token == "" ==> sent == None && error == NotLoggedIn && success == old(success) && isLoading == old(isLoading)
      ensures token != "" ==> !isLoading && sent == Some(AvailabilityQuery(date, startTime, endTime, |users|))
      ensures token != "" && Succeeded(reply) && !Nullish(reply.body) ==>
        && error == ""
        && success == (if Truthy(Prop(reply.body, "available")) then "Room is available" else "Room not available")
      ensures token != "" && Succeeded(reply) && Nullish(reply.body) ==> error == PropertyOfNullMessage && success == ""
      ensures token != "" && !Succeeded(reply) ==> error == ErrorOf(reply, "Availability check failed") && success == ""
    {
      if token == "" {
        error := NotLoggedIn;
        return None;
      }
      error := "";
      success := "";
      isLoading := true;
      sent := Some(AvailabilityQuery(date, startTime, endTime, |users|));
      if Succeeded(reply) {
        if Nullish(reply.body) {
          error := PropertyOfNullMessage;
        } else {
          success := if Truthy(Prop(reply.body, "available")) then "Room is available" else "Room not available";
        }
      } else {
        error := ErrorOf(reply, "Availability check failed");
      }
      isLoading := false;
    }
  }
}
