/**
 * The seat booking form: seat numbers and user tokens are typed as free text,
 * one entry per line or separated by commas, and parsed into lists when the
 * form is previewed or submitted.
 */
module SeatsForm {
  import opened Options
  import opened Http
  import Text

  /** The characters of the pattern `/[,\n]/` the text areas are split on. */
  const Separators: set<char> := {',', '\n'}

  // ---------------------------------------------------------------------
  // Free-text list parsing

  /** A non-empty string with no white space at either end. */
  predicate IsCleanEntry(s: string) {
    s != [] && !Text.IsWhitespace(s[0]) && !Text.IsWhitespace(s[|s| - 1])
  }

  /** `.map(s => s.trim()).filter(Boolean)` over the pieces. */
  function CleanPieces(pieces: seq<string>): (r: seq<string>)
    ensures |r| <= |pieces|
    ensures forall k :: 0 <= k < |r| ==> IsCleanEntry(r[k])
    decreases |pieces|
  {
    if pieces == [] then []
    else
      var t := Text.Trim(pieces[0]);
      var rest := CleanPieces(pieces[1..]);
      if t == "" then rest else [t] + rest
  }

  lemma {:induction false} CleanPiecesAppend(a: seq<string>, b: seq<string>)
    ensures CleanPieces(a + b) == CleanPieces(a) + CleanPieces(b)
    decreases |a|
  {
    if a == [] {
      assert a + b == b;
    } else {
      assert (a + b)[0] == a[0] && (a + b)[1..] == a[1..] + b;
      CleanPiecesAppend(a[1..], b);
    }
  }

  lemma {:induction false} CleanPiecesNoneIn(pieces: seq<string>, seps: set<char>)
    requires forall k :: 0 <= k < |pieces| ==> Text.NoneIn(pieces[k], seps)
    ensures forall k :: 0 <= k < |CleanPieces(pieces)| ==> Text.NoneIn(CleanPieces(pieces)[k], seps)
    decreases |pieces|
  {
    if pieces != [] {
      Text.TrimKeepsNoneIn(pieces[0], seps);
      CleanPiecesNoneIn(pieces[1..], seps);
    }
  }

  /** `text.split(/[,\n]/).map(s => s.trim()).filter(Boolean)` */
  function ParseList(text: string): (entries: seq<string>)
    ensures |entries| <= |Text.Split(text, Separators)|
  {
    CleanPieces(Text.Split(text, Separators))
  }

  /** Every entry is non-empty, is its own trim, and holds no comma or line break. */
  lemma ParsedEntriesAreClean(text: string)
    ensures forall k :: 0 <= k < |ParseList(text)| ==>
      && ParseList(text)[k] != ""
      && Text.Trim(ParseList(text)[k]) == ParseList(text)[k]
      && Text.NoneIn(ParseList(text)[k], Separators)
  {
    var entries := ParseList(text);
    CleanPiecesNoneIn(Text.Split(text, Separators), Separators);
    forall k | 0 <= k < |entries|
      ensures entries[k] != "" && Text.Trim(entries[k]) == entries[k]
    {
      var e := entries[k];
      assert IsCleanEntry(e);
      Text.TrimUnchanged(e);
    }
  }

  /** Parsing text joined at a separator joins the parsed lists: entries keep the order of the text. */
  lemma ParseListAtSeparator(a: string, c: char, b: string)
    requires c in Separators
    ensures ParseList(a + [c] + b) == ParseList(a) + ParseList(b)
  {
    Text.SplitAtSeparator(a, c, b, Separators);
    CleanPiecesAppend(Text.Split(a, Separators), Text.Split(b, Separators));
  }

  /** Text without separators is one entry, its trim, unless that trim is empty. */
  lemma ParseListSingleEntry(text: string)
    requires Text.NoneIn(text, Separators)
    ensures ParseList(text) == if Text.Trim(text) == "" then [] else [Text.Trim(text)]
  {
    Text.SplitNoSeparator(text, Separators);
  }

  predicate Blank(text: string) {
    forall i :: 0 <= i < |text| ==> text[i] in Separators || Text.IsWhitespace(text[i])
  }

  lemma {:induction false} BlankPieces(text: string)
    requires Blank(text)
    ensures forall k :: 0 <= k < |Text.Split(text, Separators)| ==>
      forall i :: 0 <= i < |Text.Split(text, Separators)[k]| ==> Text.IsWhitespace(Text.Split(text, Separators)[k][i])
    decreases |text|
  {
    if text != [] {
      BlankPieces(text[1..]);
    }
  }

  lemma {:induction false} CleanWhitespacePieces(pieces: seq<string>)
    requires forall k :: 0 <= k < |pieces| ==> forall i :: 0 <= i < |pieces[k]| ==> Text.IsWhitespace(pieces[k][i])
    ensures CleanPieces(pieces) == []
    decreases |pieces|
  {
    if pieces != [] {
      Text.TrimAllWhitespace(pieces[0]);
      CleanWhitespacePieces(pieces[1..]);
    }
  }

  /** Text made only of separators and white space parses to no entries. */
  lemma BlankParsesEmpty(text: string)
    requires Blank(text)
    ensures ParseList(text) == []
  {
    BlankPieces(text);
    CleanWhitespacePieces(Text.Split(text, Separators));
  }

  // ---------------------------------------------------------------------
  // Capacity

  /** `formData.capacity || Math.max(seat_no.length, users.length)` */
  function PayloadCapacity(capacity: int, seats: seq<string>, users: seq<string>): (r: int)
    ensures capacity != 0 ==> r == capacity
    ensures capacity == 0 ==> r >= |seats| && r >= |users| && (r == |seats| || r == |users|)
  {
    if capacity != 0 then capacity else if |seats| >= |users| then |seats| else |users|
  }

  /** The preview shows `formData.capacity || 0`, which for a number is the capacity itself. */
  function PreviewCapacity(capacity: int): (r: int)
    ensures r == capacity
    ensures r == 0 <==> capacity == 0
  {
    if capacity != 0 then capacity else 0
  }

  /** Preview and payload disagree on the capacity exactly when it was left 0 and some entry was typed. */
  lemma PreviewCapacityDiffers(capacity: int, seats: seq<string>, users: seq<string>)
    ensures PreviewCapacity(capacity) != PayloadCapacity(capacity, seats, users)
      <==> capacity == 0 && (seats != [] || users != [])
  {
  }

  // ---------------------------------------------------------------------
  // Component state

  /** The `formData` state object. */
  datatype FormData = FormData(date: string, floorNumber: int, capacity: int, status: bool)

  const EmptyForm: FormData := FormData("", 0, 0, true)

  datatype FieldUpdate = SetDate(date: string) | SetFloor(floor: int) | SetCapacity(capacity: int) | SetStatus(status: bool)

  /** `{ ...prev, [name]: value }`: only the named field changes. */
  function Updated(data: FormData, update: FieldUpdate): (r: FormData)
    ensures r.date == (if update.SetDate? then update.date else data.date)
    ensures r.floorNumber == (if update.SetFloor? then update.floor else data.floorNumber)
    ensures r.capacity == (if update.SetCapacity? then update.capacity else data.capacity)
    ensures r.status == (if update.SetStatus? then update.status else data.status)
  {
    match update
    case SetDate(d) => data.(date := d)
    case SetFloor(f) => data.(floorNumber := f)
    case SetCapacity(c) => data.(capacity := c)
    case SetStatus(b) => data.(status := b)
  }

  /** The request handed to the seat booking client. */
  datatype SeatPayload = SeatPayload(
    token: string, date: string, floorNumber: int, status: bool,
    seatNo: seq<string>, capacity: int, users: seq<string>)

  /** The payload shown for review while typing. */
  datatype SeatPreview = SeatPreview(
    token: string, date: string, floorNumber: int, status: bool,
    seatNo: seq<string>, capacity: int, users: seq<string>)

  /** The payload `handleSubmit` sends, with `isoDate` as the converted date. */
  function Payload(token: string, isoDate: string, data: FormData, seatNumbers: string, userTokens: string): (p: SeatPayload)
    ensures p.seatNo == ParseList(seatNumbers) && p.users == ParseList(userTokens)
    ensures p.capacity == PayloadCapacity(data.capacity, p.seatNo, p.users)
  {
    var seatNo := ParseList(seatNumbers);
    var users := ParseList(userTokens);
    SeatPayload(token, isoDate, data.floorNumber, data.status, seatNo, PayloadCapacity(data.capacity, seatNo, users), users)
  }

  /** The review panel's payload. */
  function Preview(token: string, data: FormData, seatNumbers: string, userTokens: string): (p: SeatPreview)
    ensures p.seatNo == ParseList(seatNumbers) && p.users == ParseList(userTokens)
    ensures p.capacity == PreviewCapacity(data.capacity)
    ensures p.token == (if token == "" then "..." else token)
    ensures p.date == (if data.date == "" then "YYYY-MM-DD" else data.date)
  {
    SeatPreview(if token == "" then "..." else token, if data.date == "" then "YYYY-MM-DD" else data.date,
      data.floorNumber, data.status, ParseList(seatNumbers), PreviewCapacity(data.capacity), ParseList(userTokens))
  }

  /** Preview and submission show the same seat numbers and users for the same text. */
  lemma PreviewMatchesPayload(token: string, isoDate: string, data: FormData, seatNumbers: string, userTokens: string)
    ensures Preview(token, data, seatNumbers, userTokens).seatNo == Payload(token, isoDate, data, seatNumbers, userTokens).seatNo
    ensures Preview(token, data, seatNumbers, userTokens).users == Payload(token, isoDate, data, seatNumbers, userTokens).users
  {
  }

  const LoginRequired: string := "Login required."
  const LoginToBookSeats: string := "Please log in to book seats."
  const BookingSuccessful: string := "Booking successful!"
  const UnexpectedError: string := "Unexpected error."

  class Form {
    var formData: FormData
    var seatNumbers: string
    var userTokens: string
    var token: string
    var floors: seq<int>
    var error: string
    var success: string
    var isLoading: bool

    /** The state after mounting with the stored token `jwt`. */
    constructor (jwt: string)
      ensures formData == EmptyForm && seatNumbers == "" && userTokens == ""
      ensures token == jwt && success == "" && !isLoading
      ensures jwt == "" ==> error == LoginToBookSeats && floors == []
      ensures jwt != "" ==> error == "" && floors == [1, 2, 3, 4, 5]
    {
      formData := EmptyForm;
      seatNumbers, userTokens := "", "";
      success, isLoading := "", false;
      token := "";
      if jwt == "" {
        error := LoginToBookSeats;
        floors := [];
      } else {
        error := "";
        token := jwt;
        floors := [1, 2, 3, 4, 5];
      }
    }

    /** `handleInput(name, value)`: the named field changes and the error is cleared. */
    method HandleInput(update: FieldUpdate)
      modifies this`formData, this`error
      ensures formData == Updated(old(formData), update) && error == ""
    {
      formData := Updated(formData, update);
      error := "";
    }

    /** The seat-numbers text area's `onChange`. */
    method SetSeatNumbers(text: string)
      modifies this`seatNumbers
      ensures seatNumbers == text
    {
      seatNumbers := text;
    }

    /** The user-tokens text area's `onChange`. */
    method SetUserTokens(text: string)
      modifies this`userTokens
      ensures userTokens == text
    {
      userTokens := text;
    }

    /**
     * `handleSubmit`. `isoDate` is `new Date(date).toISOString()`, None when
     * the date is invalid (the call throws and the handler stops there);
     * `outcome` is how the booking call ends.
     */
    method Submit(isoDate: Option<string>, outcome: ApiOutcome) returns (sent: Option<SeatPayload>)
      modifies this`formData, this`seatNumbers, this`userTokens, this`error, this`success, this`isLoading
      ensures token == "" || isoDate.None? ==>
        && sent == None && error == (if token == "" then LoginRequired else "")
        && success == "" && isLoading == old(isLoading)
        && formData == old(formData) && seatNumbers == old(seatNumbers) && userTokens == old(userTokens)
      ensures token != "" && isoDate.Some? ==>
        && sent == Some(Payload(token, isoDate.value, old(formData), old(seatNumbers), old(userTokens)))
        && !isLoading
        && (outcome.Resolved? ==>
              && success == BookingSuccessful && error == ""
              && formData == EmptyForm && seatNumbers == "" && userTokens == "")
        && (outcome.Rejected? ==>
              && success == "" && error == (if outcome.message != "" then outcome.message else UnexpectedError)
              && formData == old(formData) && seatNumbers == old(seatNumbers) && userTokens == old(userTokens))
    {
      var request := if isoDate.Some? then Some(Payload(token, isoDate.value, formData, seatNumbers, userTokens)) else None;
      error := "";
      success := "";
      if token == "" {
        error := LoginRequired;
        return None;
      }
      if isoDate.None? {
        return None;
      }
      sent := request;
      Complete(outcome);
    }

    /**
     * The `try`/`catch`/`finally` of `handleSubmit`, once the payload is sent:
     * success resets the form and both text areas, failure reports the error.
     */
    method Complete(outcome: ApiOutcome)
      modifies this`formData, this`seatNumbers, this`userTokens, this`error, this`success, this`isLoading
      ensures !isLoading
      ensures outcome.Resolved? ==>
        && success == BookingSuccessful && error == old(error)
        && formData == EmptyForm && seatNumbers == "" && userTokens == ""
      ensures outcome.Rejected? ==>
        && success == old(success) && error == (if outcome.message != "" then outcome.message else UnexpectedError)
        && formData == old(formData) && seatNumbers == old(seatNumbers) && userTokens == old(userTokens)
    {
      isLoading := true;
      match outcome {
        case Resolved =>
          success := BookingSuccessful;
          formData := EmptyForm;
          seatNumbers, userTokens := "", "";
        case Rejected(m) =>
          error := if m != "" then m else UnexpectedError;
      }
      isLoading := false;
    }
  }
}
