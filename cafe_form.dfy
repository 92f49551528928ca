/**
 * The cafeteria booking form: a date and a start and end time, a submit that
 * only checks for a login token, and an availability check that first
 * checks that every field is filled.
 */
module CafeForm {
  import opened Options
  import opened JsValues
  import opened Http

  /** The `formData` state object. */
  datatype FormData = FormData(date: string, startTime: string, endTime: string)

  const EmptyForm: FormData := FormData("", "", "")

  /** The `name` attribute of the input that changed. */
  datatype InputName = DateInput | StartTimeInput | EndTimeInput

  const FillAllFields: string := "Please fill all fields"
  const NotAuthenticated: string := "Not authenticated. Please log in."
  const CafeBooked: string := "Cafe booked successfully!"
  const AvailableSeatsPrefix: string := "Available seats: "

  /** `{ ...prev, [name]: value }`: the named field takes the value, the others stay. */
  function Updated(data: FormData, name: InputName, value: string): (r: FormData)
    ensures r.date == (if name == DateInput then value else data.date)
    ensures r.startTime == (if name == StartTimeInput then value else data.startTime)
    ensures r.endTime == (if name == EndTimeInput then value else data.endTime)
  {
    match name
    case DateInput => data.(date := value)
    case StartTimeInput => data.(startTime := value)
    case EndTimeInput => data.(endTime := value)
  }

  /** Every field holds a non-empty string. */
  predicate Filled(data: FormData) {
    data.date != "" && data.startTime != "" && data.endTime != ""
  }

  /**
   * The guards at the head of `checkAvailability`, in their order: the error
   * they set, or None when the request goes out.
   */
  function AvailabilityGate(data: FormData, token: string): (r: Option<string>)
    ensures r == Some(FillAllFields) <==> !Filled(data)
    ensures r == Some(NotAuthenticated) <==> Filled(data) && token == ""
    ensures r.None? <==> Filled(data) && token != ""
  {
    if data.date == "" || data.startTime == "" || data.endTime == "" then Some(FillAllFields)
    else if token == "" then Some(NotAuthenticated)
    else None
  }

  /** The guard at the head of `handleSubmit`: only the token is checked. */
  function SubmitGate(token: string): (r: Option<string>)
    ensures r.None? <==> token != ""
    ensures r.Some? ==> r.value == NotAuthenticated
  {
    if token == "" then Some(NotAuthenticated) else None
  }

  /** Submitting lets through empty fields that the availability check stops. */
  lemma SubmitIsLaxerThanCheck(data: FormData, token: string)
    ensures AvailabilityGate(data, token).None? ==> SubmitGate(token).None?
    ensures token != "" && !Filled(data) ==> SubmitGate(token).None? && AvailabilityGate(data, token).Some?
  {
  }

  class Form {
    var formData: FormData
    var token: string
    var isLoading: bool
    var error: string
    var success: string

    /** The state after mounting with the stored token `jwt` ('' when none). */
    constructor (jwt: string)
      ensures formData == EmptyForm && token == jwt && !isLoading && error == "" && success == ""
    {
      formData := EmptyForm;
      token := jwt;
      isLoading, error, success := false, "", "";
    }

    /** `handleChange`: only the named field changes. */
    method HandleChange(name: InputName, value: string)
      modifies this`formData
      ensures formData == Updated(old(formData), name, value)
    {
      formData := Updated(formData, name, value);
    }

    /**
     * `handleSubmit`; `reply` is how the POST to the cafeteria booking
     * endpoint ends. Returns the form data the request was built from.
     */
    method Submit(reply: Fetched) returns (sent: Option<FormData>)
      modifies this`formData, this`isLoading, this`error, this`success
      ensures token == "" ==>
        && sent == None && error == NotAuthenticated
        && success == old(success) && formData == old(formData) && isLoading == old(isLoading)
      ensures token != "" ==> sent == Some(old(formData)) && !isLoading
      ensures token != "" && Succeeded(reply) ==> success == CafeBooked && error == "" && formData == EmptyForm
      ensures token != "" && !Succeeded(reply) ==>
        success == "" && error == ErrorOf(reply, "Booking failed") && formData == old(formData)
    {
      var blocked := SubmitGate(token);
      if blocked.Some? {
        error := blocked.value;
        return None;
      }
      isLoading := true;
      error, success := "", "";
      sent := Some(formData);
      if Succeeded(reply) {
        success := CafeBooked;
        formData := EmptyForm;
      } else {
        error := ErrorOf(reply, "Booking failed");
      }
      isLoading := false;
    }

    /**
     * `checkAvailability`; `reply` is how the POST to the availability
     * endpoint ends. Returns the form data the request was built from.
     */
    method CheckAvailability(reply: Fetched) returns (sent: Option<FormData>)
      modifies this`isLoading, this`error, this`success
      ensures sent.None? <==> AvailabilityGate(formData, token).Some?
      ensures sent.None? ==>
        && error == AvailabilityGate(formData, token).value
        && success == old(success) && isLoading == old(isLoading)
      ensures sent.Some? ==> sent.value == formData && !isLoading
      ensures sent.Some? && Succeeded(reply) ==>
        success == AvailableSeatsPrefix + ToStr(reply.body) && error == ""
      ensures sent.Some? && !Succeeded(reply) ==> success == "" && error == ErrorOf(reply, "Check failed")
    {
      var blocked := AvailabilityGate(formData, token);
      if blocked.Some? {
        error := blocked.value;
        return None;
      }
      isLoading := true;
      error, success := "", "";
      sent := Some(formData);
      if Succeeded(reply) {
        success := AvailableSeatsPrefix + ToStr(reply.body);
      } else {
        error := ErrorOf(reply, "Check failed");
      }
      isLoading := false;
    }
  }
}
