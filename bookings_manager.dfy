/**
 * The bookings management page: the list of bookings normalised from the
 * backend's records, the caller's role, and deletion of one booking.
 */
module BookingsManager {
  import opened Options
  import opened JsValues
  import opened Http

  /**
   * One row of the page. The id is `String(item.id)`; the other fields keep
   * whatever value the fallback chain produced, which need not be a string.
   */
  datatype Booking = Booking(id: string, amenity: JsValue, bookingDate: JsValue, startTime: JsValue, endTime: JsValue)

  const LoadFailed: string := "Failed to load bookings"

  /** `item.details?.[k]`, read from a record that is not null or undefined. */
  function Detail(item: JsValue, k: nat): (r: JsValue)
    requires !Nullish(item)
    ensures Nullish(Prop(item, "details")) ==> r == Undefined
    ensures Prop(item, "details").Arr? && k < |Prop(item, "details").items| ==> r == Prop(item, "details").items[k]
    ensures Prop(item, "details").Arr? && k >= |Prop(item, "details").items| ==> r == Undefined
  {
    OptIndex(Prop(item, "details"), k)
  }

  /**
   * The row built from one backend record, or None when the record is null
   * or undefined (reading `item.id` throws).
   */
  function MapItem(item: JsValue): (r: Option<Booking>)
    ensures r.None? <==> Nullish(item)
    ensures r.Some? ==>
      && r.value.id == ToStr(Prop(item, "id"))
      && r.value.amenity == (if Truthy(Prop(item, "amenity")) then Prop(item, "amenity") else Prop(item, "roomName"))
      && r.value.bookingDate == (if Nullish(Prop(item, "bookingDate")) then Prop(item, "date") else Prop(item, "bookingDate"))
  {
    if Nullish(item) then None
    else
      Some(Booking(
        ToStr(Prop(item, "id")),
        Or(Prop(item, "amenity"), Prop(item, "roomName")),
        Coalesce(Prop(item, "bookingDate"), Prop(item, "date")),
        Coalesce(Prop(item, "startTime"), Coalesce(Prop(item, "start_time"), Coalesce(Detail(item, 0), Str("")))),
        Coalesce(Prop(item, "endTime"), Coalesce(Prop(item, "end_time"), Coalesce(Detail(item, 1), Str(""))))))
  }

  /**
   * The start and end times take the first field that is not null or
   * undefined among the camel-case field, the snake-case field and the
   * details entry, and '' when all three are missing.
   */
  lemma TimeFallbackChain(item: JsValue)
    requires !Nullish(item)
    ensures !Nullish(Prop(item, "startTime")) ==> MapItem(item).value.startTime == Prop(item, "startTime")
    ensures Nullish(Prop(item, "startTime")) && !Nullish(Prop(item, "start_time")) ==>
      MapItem(item).value.startTime == Prop(item, "start_time")
    ensures Nullish(Prop(item, "startTime")) && Nullish(Prop(item, "start_time")) && !Nullish(Detail(item, 0)) ==>
      MapItem(item).value.startTime == Detail(item, 0)
    ensures Nullish(Prop(item, "startTime")) && Nullish(Prop(item, "start_time")) && Nullish(Detail(item, 0)) ==>
      MapItem(item).value.startTime == Str("")
    ensures !Nullish(Prop(item, "endTime")) ==> MapItem(item).value.endTime == Prop(item, "endTime")
    ensures Nullish(Prop(item, "endTime")) && !Nullish(Prop(item, "end_time")) ==>
      MapItem(item).value.endTime == Prop(item, "end_time")
    ensures Nullish(Prop(item, "endTime")) && Nullish(Prop(item, "end_time")) && !Nullish(Detail(item, 1)) ==>
      MapItem(item).value.endTime == Detail(item, 1)
    ensures Nullish(Prop(item, "endTime")) && Nullish(Prop(item, "end_time")) && Nullish(Detail(item, 1)) ==>
      MapItem(item).value.endTime == Str("")
  {
  }

  /**
   * `||` and `??` part ways on an empty string: an empty amenity falls back
   * to the room name, an empty booking date is kept.
   */
  lemma EmptyStringFallbacks(fields: map<string, JsValue>, roomName: JsValue)
    requires "amenity" in fields && fields["amenity"] == Str("")
    requires "bookingDate" in fields && fields["bookingDate"] == Str("")
    requires "roomName" in fields && fields["roomName"] == roomName
    ensures MapItem(Obj(fields)).value.amenity == roomName
    ensures MapItem(Obj(fields)).value.bookingDate == Str("")
  {
  }

  /**
   * `data.map(...)` over the parsed body: None when the body is not an array
   * or some record is null or undefined (the call throws).
   */
  function MapBookings(data: JsValue): (r: Option<seq<Booking>>)
    ensures r.Some? <==> data.Arr? && forall i :: 0 <= i < |data.items| ==> !Nullish(data.items[i])
    ensures r.Some? ==> |r.value| == |data.items|
    ensures r.Some? ==> forall i :: 0 <= i < |r.value| ==> Some(r.value[i]) == MapItem(data.items[i])
  {
    if data.Arr? && forall i :: 0 <= i < |data.items| ==> !Nullish(data.items[i]) then
      Some(seq(|data.items|, i requires 0 <= i < |data.items| => MapItem(data.items[i]).value))
    else None
  }

  /** `bs.filter(b => b.id !== id)` */
  function WithoutId(bs: seq<Booking>, id: string): (r: seq<Booking>)
    ensures |r| <= |bs|
    ensures forall k :: 0 <= k < |r| ==> r[k].id != id && r[k] in bs
    ensures forall b :: b in bs && b.id != id ==> b in r
  {
    if bs == [] then []
    else if bs[0].id != id then [bs[0]] + WithoutId(bs[1..], id)
    else WithoutId(bs[1..], id)
  }

  /** Filtering keeps the order: it distributes over concatenation. */
  lemma {:induction false} WithoutIdAppend(a: seq<Booking>, b: seq<Booking>, id: string)
    ensures WithoutId(a + b, id) == WithoutId(a, id) + WithoutId(b, id)
    decreases |a|
  {
    if a == [] {
      assert a + b == b;
    } else {
      assert (a + b)[0] == a[0] && (a + b)[1..] == a[1..] + b;
      WithoutIdAppend(a[1..], b, id);
    }
  }

  /** A list with no booking of that id is left as it is. */
  lemma {:induction false} WithoutAbsentId(bs: seq<Booking>, id: string)
    requires forall k :: 0 <= k < |bs| ==> bs[k].id != id
    ensures WithoutId(bs, id) == bs
    decreases |bs|
  {
    if bs != [] {
      WithoutAbsentId(bs[1..], id);
    }
  }

  /** `userRole === 'Manager'`: strict equality with the string, so null and other values fail. */
  predicate IsManager(role: JsValue) {
    role == Str("Manager")
  }

  lemma OnlyTheManagerString(role: JsValue)
    ensures IsManager(role) <==> role.Str? && role.s == "Manager"
    ensures Nullish(role) ==> !IsManager(role)
  {
  }

  /** The component's state. */
  class Manager {
    var bookings: seq<Booking>
    var isLoading: bool
    var error: string
    var toDelete: Option<Booking>
    var userRole: JsValue

    constructor ()
      ensures bookings == [] && isLoading && error == "" && toDelete == None && userRole == Null
    {
      bookings := [];
      isLoading := true;
      error := "";
      toDelete := None;
      userRole := Null;
    }

    /** Whether the actions column is shown. */
    predicate ShowsActions(): (b: bool)
      reads this
      ensures b <==> userRole.Str? && userRole.s == "Manager"
      ensures Nullish(userRole) ==> !b
    {
      IsManager(userRole)
    }

    /**
     * The mount effect `load`. `roleReply` is how the role request ends and
     * `listReply` how the bookings request ends.
     */
    method Load(roleReply: Fetched, listReply: Fetched)
      modifies this`bookings, this`isLoading, this`error, this`userRole
      ensures !isLoading
      ensures roleReply.FetchFailed? || (Succeeded(roleReply) && Nullish(roleReply.body)) ==>
        error == LoadFailed && bookings == old(bookings) && userRole == old(userRole)
      ensures roleReply.Fetched? && !IsOk(roleReply.status) ==> userRole == Null
      ensures Succeeded(roleReply) && !Nullish(roleReply.body) ==> userRole == Prop(roleReply.body, "role")
      ensures roleReply.Fetched? && !(Succeeded(roleReply) && Nullish(roleReply.body)) ==>
        if Succeeded(listReply) && MapBookings(listReply.body).Some? then
          bookings == MapBookings(listReply.body).value && error == old(error)
        else
          bookings == old(bookings) && error == LoadFailed
    {
      isLoading := true;
      if roleReply.FetchFailed? || (Succeeded(roleReply) && Nullish(roleReply.body)) {
        error := LoadFailed;
        isLoading := false;
        return;
      }
      userRole := if IsOk(roleReply.status) then Prop(roleReply.body, "role") else Null;
      var rows := if Succeeded(listReply) then MapBookings(listReply.body) else None;
      if rows.Some? {
        bookings := rows.value;
      } else {
        error := LoadFailed;
      }
      isLoading := false;
    }

    /** The trash button of row `b`: the booking becomes pending. */
    method AskDelete(b: Booking)
      modifies this`toDelete
      ensures toDelete == Some(b)
    {
      toDelete := Some(b);
    }

    /** The dialog's Cancel button. */
    method CancelDelete()
      modifies this`toDelete
      ensures toDelete == None
    {
      toDelete := None;
    }

    /**
     * `doDelete`; `deleted` says whether the DELETE request went through with
     * an ok status. Without a pending booking nothing happens.
     */
    method DoDelete(deleted: bool)
      modifies this`bookings, this`isLoading, this`toDelete
      ensures old(toDelete).None? ==> bookings == old(bookings) && isLoading == old(isLoading) && toDelete == None
      ensures old(toDelete).Some? ==> !isLoading && toDelete == None
      ensures old(toDelete).Some? && deleted ==> bookings == WithoutId(old(bookings), old(toDelete).value.id)
      ensures old(toDelete).Some? && !deleted ==> bookings == old(bookings)
    {
      if toDelete.None? {
        return;
      }
      isLoading := true;
      if deleted {
        bookings := WithoutId(bookings, toDelete.value.id);
      }
      isLoading := false;
      toDelete := None;
    }
  }
}
