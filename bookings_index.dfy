/**
 * The `/api/bookings` proxy handler: `GET` forwards to the backend's overall
 * booking list and reshapes each record; every other method is refused.
 */
module BookingsIndex {
  import opened Options
  import opened JsValues
  import opened Http

  /** One reshaped booking, before JSON serialisation. */
  datatype Row = Row(id: string, amenity: JsValue, bookingDate: JsValue, startTime: JsValue, endTime: JsValue)

  /** The row for one backend record, which must not be null or undefined (reading its `id` would throw). */
  function RowFrom(item: JsValue): (row: Row)
    requires !Nullish(item)
    ensures row.id == ToStr(Prop(item, "id"))
    ensures row.amenity == Prop(item, "amenity") && row.bookingDate == Prop(item, "date")
    ensures Truthy(OptIndex(Prop(item, "details"), 0)) ==> row.startTime == OptIndex(Prop(item, "details"), 0)
    ensures !Truthy(OptIndex(Prop(item, "details"), 0)) ==> row.startTime == Str("")
    ensures Truthy(OptIndex(Prop(item, "details"), 1)) ==> row.endTime == OptIndex(Prop(item, "details"), 1)
    ensures !Truthy(OptIndex(Prop(item, "details"), 1)) ==> row.endTime == Str("")
  {
    var details := Prop(item, "details");
    Row(ToStr(Prop(item, "id")), Prop(item, "amenity"), Prop(item, "date"),
        Or(OptIndex(details, 0), Str("")), Or(OptIndex(details, 1), Str("")))
  }

  /** A record without `details`, or with empty ones, gets empty times. */
  lemma MissingDetailsGiveEmptyTimes(item: JsValue)
    requires item.Obj? && ("details" !in item.fields || item.fields["details"] == Arr([]))
    ensures RowFrom(item).startTime == Str("") && RowFrom(item).endTime == Str("")
  {
  }

  /**
   * `Array.isArray(data) ? data.map(...) : []`: None when the map throws on a
   * null or undefined record.
   */
  function Rows(data: JsValue): (r: Option<seq<Row>>)
    ensures !data.Arr? ==> r == Some([])
    ensures data.Arr? ==> (r.Some? <==> forall i :: 0 <= i < |data.items| ==> !Nullish(data.items[i]))
    ensures data.Arr? && r.Some? ==> |r.value| == |data.items|
    ensures data.Arr? && r.Some? ==> forall i :: 0 <= i < |r.value| ==> r.value[i] == RowFrom(data.items[i])
  {
    if !data.Arr? then Some([])
    else if forall i :: 0 <= i < |data.items| ==> !Nullish(data.items[i]) then
      Some(seq(|data.items|, i requires 0 <= i < |data.items| => RowFrom(data.items[i])))
    else None
  }

  /** A field as `JSON.stringify` writes it: a key whose value is undefined is left out. */
  function WithField(fields: map<string, JsValue>, key: string, v: JsValue): (m: map<string, JsValue>)
    ensures v.Undefined? ==> m == fields
    ensures !v.Undefined? ==> m == fields[key := v]
  {
    if v.Undefined? then fields else fields[key := v]
  }

  /** The JSON object a row becomes. */
  function RowJson(row: Row): (v: JsValue)
    ensures v.Obj? && "id" in v.fields && "startTime" in v.fields && "endTime" in v.fields
    ensures v.fields["id"] == Str(row.id)
    ensures v.fields["startTime"] == row.startTime && v.fields["endTime"] == row.endTime
    ensures "amenity" in v.fields <==> !row.amenity.Undefined?
    ensures "bookingDate" in v.fields <==> !row.bookingDate.Undefined?
    ensures "amenity" in v.fields ==> v.fields["amenity"] == row.amenity
    ensures "bookingDate" in v.fields ==> v.fields["bookingDate"] == row.bookingDate
    ensures v.fields.Keys <= {"id", "amenity", "bookingDate", "startTime", "endTime"}
  {
    var base := map["id" := Str(row.id)];
    var withAmenity := WithField(base, "amenity", row.amenity);
    var withDate := WithField(withAmenity, "bookingDate", row.bookingDate);
    Obj(withDate["startTime" := row.startTime]["endTime" := row.endTime])
  }

  /** `res.json(bookings)`: the rows in order, each as its JSON object. */
  function RowsJson(rows: seq<Row>): (v: seq<JsValue>)
    ensures |v| == |rows|
    ensures forall i :: 0 <= i < |rows| ==> v[i] == RowJson(rows[i])
  {
    seq(|rows|, i requires 0 <= i < |rows| => RowJson(rows[i]))
  }

  /** `Method ${req.method} Not Allowed`, where a missing method prints as `undefined`. */
  function NotAllowedText(httpMethod: Option<string>): string {
    "Method " + (if httpMethod.Some? then httpMethod.value else "undefined") + " Not Allowed"
  }

  /**
   * `handler(req, res)`: `httpMethod` is `req.method`, `auth` is
   * `req.headers.authorization || ''`, and `backend` how the backend call ends.
   * The result is the response together with the headers sent to the backend,
   * None when no backend call is made.
   */
  function Handle(httpMethod: Option<string>, auth: string, backend: Fetched): (r: (Response, Option<map<string, string>>))
    ensures httpMethod != Some("GET") ==>
      r == (Response(405, map["Allow" := "GET"], PlainText(NotAllowedText(httpMethod))), None)
    ensures httpMethod == Some("GET") ==> r.1 == Some(ForwardedHeaders(auth))
    ensures httpMethod == Some("GET") && backend.FetchFailed? ==>
      r.0 == JsonResponse(500, Obj(map["success" := Bool(false), "message" := Str(backend.message)]))
    ensures httpMethod == Some("GET") && backend.Fetched? && Rows(backend.body).Some? ==>
      r.0 == JsonResponse(backend.status, Arr(RowsJson(Rows(backend.body).value)))
    ensures httpMethod == Some("GET") && backend.Fetched? && Rows(backend.body).None? ==>
      r.0 == JsonResponse(500, Obj(map["success" := Bool(false), "message" := Str(PropertyOfNullMessage)]))
  {
    if httpMethod != Some("GET") then
      (Response(405, map["Allow" := "GET"], PlainText(NotAllowedText(httpMethod))), None)
    else
      var sent := Some(ForwardedHeaders(auth));
      match backend
      case FetchFailed(message) =>
        (JsonResponse(500, Obj(map["success" := Bool(false), "message" := Str(message)])), sent)
      case Fetched(status, body) =>
        match Rows(body)
        case None =>
          (JsonResponse(500, Obj(map["success" := Bool(false), "message" := Str(PropertyOfNullMessage)])), sent)
        case Some(rows) =>
          (JsonResponse(status, Arr(RowsJson(rows))), sent)
  }

  /** Whatever the backend answers, a well-formed answer keeps its status, and a non-array body becomes []. */
  lemma StatusPassesThrough(auth: string, status: int, body: JsValue)
    requires !body.Arr?
    ensures Handle(Some("GET"), auth, Fetched(status, body)).0 == JsonResponse(status, Arr([]))
  {
    assert Rows(body) == Some([]);
  }
}
