/**
 * The events page: the events loaded through the API client, renamed for
 * display, the caller's role, and deletion of the selected event.
 */
module EventsList {
  import opened Options
  import opened JsValues
  import opened Http

  /** One row; the fields are copied from the backend record without conversion. */
  datatype EventItem = EventItem(id: JsValue, name: JsValue, description: JsValue, date: JsValue)

  const LoadFailed: string := "Failed to load events"
  const DeleteFailed: string := "Failed to delete event"

  /** The row for one record that is not null or undefined: `event_name` becomes `name`. */
  function TransformEvent(evt: JsValue): (e: EventItem)
    requires !Nullish(evt)
    ensures e.name == Prop(evt, "event_name")
    ensures e.id == Prop(evt, "id") && e.description == Prop(evt, "description") && e.date == Prop(evt, "date")
  {
    EventItem(Prop(evt, "id"), Prop(evt, "event_name"), Prop(evt, "description"), Prop(evt, "date"))
  }

  /**
   * `eventsData.map(...)`: None when the data is not an array (null after a
   * redirect included) or holds a null or undefined record, where the call throws.
   */
  function TransformAll(data: JsValue): (r: Option<seq<EventItem>>)
    ensures r.Some? <==> data.Arr? && forall i :: 0 <= i < |data.items| ==> !Nullish(data.items[i])
    ensures r.Some? ==> |r.value| == |data.items|
    ensures r.Some? ==> forall i :: 0 <= i < |r.value| ==> r.value[i] == TransformEvent(data.items[i])
  {
    if data.Arr? && forall i :: 0 <= i < |data.items| ==> !Nullish(data.items[i]) then
      Some(seq(|data.items|, i requires 0 <= i < |data.items| => TransformEvent(data.items[i])))
    else None
  }

  /** `events.filter(e => e.id !== id)` */
  function WithoutEvent(events: seq<EventItem>, id: JsValue): (r: seq<EventItem>)
    ensures |r| <= |events|
    ensures forall k :: 0 <= k < |r| ==> r[k].id != id && r[k] in events
    ensures forall e :: e in events && e.id != id ==> e in r
  {
    if events == [] then []
    else if events[0].id != id then [events[0]] + WithoutEvent(events[1..], id)
    else WithoutEvent(events[1..], id)
  }

  /** Deleting keeps the remaining events in their order. */
  lemma {:induction false} WithoutEventAppend(a: seq<EventItem>, b: seq<EventItem>, id: JsValue)
    ensures WithoutEvent(a + b, id) == WithoutEvent(a, id) + WithoutEvent(b, id)
    decreases |a|
  {
    if a == [] {
      assert a + b == b;
    } else {
      assert (a + b)[0] == a[0] && (a + b)[1..] == a[1..] + b;
      WithoutEventAppend(a[1..], b, id);
    }
  }

  /** `userData?.role ? userData.role.name : <unchanged>` as the role the page keeps. */
  function RoleFrom(userData: JsValue, current: JsValue): (r: JsValue)
    ensures Nullish(userData) ==> r == current
    ensures !Nullish(userData) && !Truthy(Prop(userData, "role")) ==> r == current
    ensures !Nullish(userData) && Truthy(Prop(userData, "role")) ==> r == Prop(Prop(userData, "role"), "name")
  {
    if Nullish(userData) then current
    else
      var role := Prop(userData, "role");
      if Truthy(role) then Prop(role, "name") else current
  }

  /** The component's state. */
  class List {
    var events: seq<EventItem>
    var isLoading: bool
    var error: string
    var selectedEvent: Option<EventItem>
    var isDeleteDialogOpen: bool
    var userRole: JsValue

    constructor ()
      ensures events == [] && isLoading && error == "" && selectedEvent == None
      ensures !isDeleteDialogOpen && userRole == Str("")
    {
      events := [];
      isLoading := true;
      error := "";
      selectedEvent := None;
      isDeleteDialogOpen := false;
      userRole := Str("");
    }

    /** The Actions column is shown only to the role `'Manager'`. */
    predicate ShowsActions(): (b: bool)
      reads this
      ensures b <==> userRole.Str? && userRole.s == "Manager"
      ensures Nullish(userRole) ==> !b
    {
      userRole == Str("Manager")
    }

    /**
     * The mount effect `fetchData` with the stored token ('' when none);
     * `userReply` and `eventsReply` are what the two API calls yield.
     */
    method FetchData(token: string, userReply: ApiReply, eventsReply: ApiReply)
      modifies this`events, this`isLoading, this`error, this`userRole
      ensures !isLoading
      ensures token == "" || userReply.Threw? ==>
        error == LoadFailed && events == old(events) && userRole == old(userRole)
      ensures token != "" && userReply.Returned? ==>
        && userRole == RoleFrom(userReply.data, old(userRole))
        && if eventsReply.Returned? && TransformAll(eventsReply.data).Some? then
             events == TransformAll(eventsReply.data).value && error == old(error)
           else
             events == old(events) && error == LoadFailed
    {
      isLoading := true;
      if token == "" || userReply.Threw? {
        error := LoadFailed;
        isLoading := false;
        return;
      }
      userRole := RoleFrom(userReply.data, userRole);
      var rows := if eventsReply.Returned? then TransformAll(eventsReply.data) else None;
      if rows.Some? {
        events := rows.value;
      } else {
        error := LoadFailed;
      }
      isLoading := false;
    }

    /** `handleDelete(evt)`: select the event and open the dialog. */
    method HandleDelete(evt: EventItem)
      modifies this`selectedEvent, this`isDeleteDialogOpen
      ensures selectedEvent == Some(evt) && isDeleteDialogOpen
    {
      selectedEvent := Some(evt);
      isDeleteDialogOpen := true;
    }

    /**
     * `confirmDelete`; `deleted` says whether the API call resolved. The
     * selection itself is not cleared.
     */
    method ConfirmDelete(deleted: bool)
      modifies this`events, this`isLoading, this`error, this`isDeleteDialogOpen
      ensures selectedEvent.None? ==>
        && events == old(events) && isLoading == old(isLoading) && error == old(error)
        && isDeleteDialogOpen == old(isDeleteDialogOpen)
      ensures selectedEvent.Some? ==> !isLoading && !isDeleteDialogOpen
      ensures selectedEvent.Some? && deleted ==>
        events == WithoutEvent(old(events), selectedEvent.value.id) && error == old(error)
      ensures selectedEvent.Some? && !deleted ==> events == old(events) && error == DeleteFailed
    {
      if selectedEvent.None? {
        return;
      }
      isLoading := true;
      if deleted {
        events := WithoutEvent(events, selectedEvent.value.id);
      } else {
        error := DeleteFailed;
      }
      isLoading := false;
      isDeleteDialogOpen := false;
    }
  }
}
