/**
 * `POST /api/bookings/meetingroom/availability`: the placeholder rule that a
 * meeting room is free for any start before 17:00.
 */
module AvailabilityRoute {
  import opened Options
  import opened JsValues
  import opened Http

  const AvailableMessage: string := "Meeting room is available for the selected time"
  const UnavailableMessage: string := "Meeting room is not available for the selected time"
  const ErrorMessage: string := "An error occurred while checking availability"

  /** The placeholder rule: a start hour before 17; NaN, from a date that does not parse, is not before it. */
  predicate Available(startHour: Option<int>) {
    startHour.Some? && startHour.value < 17
  }

  /** The body of the answer for a start hour. */
  function Verdict(startHour: Option<int>): (v: JsValue)
    ensures v == Obj(map["available" := Bool(Available(startHour)),
                         "message" := Str(if Available(startHour) then AvailableMessage else UnavailableMessage)])
  {
    var available := Available(startHour);
    Obj(map["available" := Bool(available),
            "message" := Str(if available then AvailableMessage else UnavailableMessage)])
  }

  /**
   * `POST`: `body` is the parsed request body (None when it is not JSON) and
   * `startHour` is `new Date(body.start_time).getHours()`, None for NaN.
   */
  function Post(body: Option<JsValue>, startHour: Option<int>): (r: Response)
    ensures body.None? || Nullish(body.value) ==>
      r == JsonResponse(500, Obj(map["success" := Bool(false), "message" := Str(ErrorMessage)]))
    ensures body.Some? && !Nullish(body.value) ==> r.status == 200 && r.body == Json(Verdict(startHour))
  {
    if body.None? || Nullish(body.value) then
      JsonResponse(500, Obj(map["success" := Bool(false), "message" := Str(ErrorMessage)]))
    else
      JsonResponse(200, Verdict(startHour))
  }

  /** The room is reported free exactly for starts before 17:00, with the matching message. */
  lemma AvailableBeforeFive(body: JsValue, hour: int)
    requires !Nullish(body)
    ensures Post(Some(body), Some(hour)).body.value.fields["available"] == Bool(hour < 17)
    ensures Post(Some(body), Some(hour)).body.value.fields["message"] == Str(AvailableMessage) <==> hour < 17
  {
  }

  /** Nothing else in the body matters: the date, end time and capacity do not change the answer. */
  lemma OnlyStartHourMatters(b1: JsValue, b2: JsValue, startHour: Option<int>)
    requires !Nullish(b1) && !Nullish(b2)
    ensures Post(Some(b1), startHour) == Post(Some(b2), startHour)
  {
  }
}
