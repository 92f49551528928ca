/**
 * `GET /api/floors`: the backend's floor list normalised to floor numbers,
 * with the backend's status passed through.
 */
module FloorsRoute {
  import opened Options
  import opened JsValues
  import opened Http

  const FetchFloorsFailed: string := "Failed to fetch floors"

  /** `f.floor_number ?? f.floorNumber` for an element that is not null or undefined. */
  function FloorNumberOf(f: JsValue): (v: JsValue)
    requires !Nullish(f)
    ensures !Nullish(Prop(f, "floor_number")) ==> v == Prop(f, "floor_number")
    ensures Nullish(Prop(f, "floor_number")) ==> v == Prop(f, "floorNumber")
  {
    Coalesce(Prop(f, "floor_number"), Prop(f, "floorNumber"))
  }

  /** `.filter(Boolean)` */
  function TruthyOnly(vs: seq<JsValue>): (r: seq<JsValue>)
    ensures |r| <= |vs|
    ensures forall k :: 0 <= k < |r| ==> Truthy(r[k]) && r[k] in vs
    ensures forall v :: v in vs && Truthy(v) ==> v in r
  {
    if vs == [] then []
    else if Truthy(vs[0]) then [vs[0]] + TruthyOnly(vs[1..])
    else TruthyOnly(vs[1..])
  }

  /** The filter keeps the survivors in their order. */
  lemma {:induction false} TruthyOnlyAppend(a: seq<JsValue>, b: seq<JsValue>)
    ensures TruthyOnly(a + b) == TruthyOnly(a) + TruthyOnly(b)
    decreases |a|
  {
    if a == [] {
      assert a + b == b;
    } else {
      assert (a + b)[0] == a[0] && (a + b)[1..] == a[1..] + b;
      TruthyOnlyAppend(a[1..], b);
    }
  }

  /**
   * The `floors` the route answers with for the parsed backend body, or None
   * when reading a field of a null or undefined element throws.
   */
  function Floors(data: JsValue): (r: Option<seq<JsValue>>)
    ensures !data.Arr? ==> r == Some([])
    ensures data.Arr? && |data.items| > 0 && data.items[0].Num? ==> r == Some(data.items)
    ensures data.Arr? && !(|data.items| > 0 && data.items[0].Num?) ==>
      (r.Some? <==> forall i :: 0 <= i < |data.items| ==> !Nullish(data.items[i]))
    ensures data.Arr? && !(|data.items| > 0 && data.items[0].Num?) && r.Some? ==>
      r.value == TruthyOnly(seq(|data.items|, i requires 0 <= i < |data.items| && !Nullish(data.items[i]) =>
        FloorNumberOf(data.items[i])))
  {
    if !data.Arr? then Some([])
    else if |data.items| > 0 && data.items[0].Num? then Some(data.items)
    else if forall i :: 0 <= i < |data.items| ==> !Nullish(data.items[i]) then
      Some(TruthyOnly(seq(|data.items|, i requires 0 <= i < |data.items| && !Nullish(data.items[i]) =>
        FloorNumberOf(data.items[i]))))
    else None
  }

  /** Outside the pass-through case every floor is truthy and comes from an element, and there are no more floors than elements. */
  lemma NormalisedFloorsAreTruthy(data: JsValue)
    requires data.Arr? && !(|data.items| > 0 && data.items[0].Num?) && Floors(data).Some?
    ensures |Floors(data).value| <= |data.items|
    ensures forall k :: 0 <= k < |Floors(data).value| ==> Truthy(Floors(data).value[k])
    ensures forall k :: 0 <= k < |Floors(data).value| ==>
      exists i :: 0 <= i < |data.items| && Floors(data).value[k] == FloorNumberOf(data.items[i])
  {
    var mapped := seq(|data.items|, i requires 0 <= i < |data.items| && !Nullish(data.items[i]) =>
      FloorNumberOf(data.items[i]));
    forall k | 0 <= k < |Floors(data).value|
      ensures exists i :: 0 <= i < |data.items| && Floors(data).value[k] == FloorNumberOf(data.items[i])
    {
      var i :| 0 <= i < |mapped| && mapped[i] == Floors(data).value[k];
    }
  }

  /** A leading number passes the whole array through, even the elements that are not numbers. */
  lemma LeadingNumberPassesThrough(n: int, rest: seq<JsValue>)
    ensures Floors(Arr([Num(n)] + rest)) == Some([Num(n)] + rest)
  {
  }

  /** An empty array goes through the map branch and stays empty. */
  lemma EmptyArrayStaysEmpty()
    ensures Floors(Arr([])) == Some([])
  {
  }

  /** `floor_number` wins unless it is null or undefined, and a zero floor number is dropped, not replaced. */
  lemma ZeroFloorIsDropped(fallback: JsValue)
    ensures Floors(Arr([Obj(map["floor_number" := Num(0), "floorNumber" := fallback])])) == Some([])
  {
    var e := Obj(map["floor_number" := Num(0), "floorNumber" := fallback]);
    assert FloorNumberOf(e) == Num(0);
    assert TruthyOnly([Num(0)]) == [];
    assert seq(1, i requires 0 <= i < 1 && !Nullish([e][i]) => FloorNumberOf([e][i])) == [Num(0)];
  }

  /** `err.message || 'Failed to fetch floors'` */
  function CatchMessage(message: string): (m: string)
    ensures message != "" ==> m == message
    ensures message == "" ==> m == FetchFloorsFailed
  {
    if message != "" then message else FetchFloorsFailed
  }

  /**
   * `GET`, with `auth` the request's `authorization` header ('' when absent)
   * and `backend` how the backend call ends. Also yields the headers sent.
   */
  function Get(auth: string, backend: Fetched): (r: (Response, map<string, string>))
    ensures r.1 == ForwardedHeaders(auth)
    ensures backend.FetchFailed? ==>
      r.0 == JsonResponse(500, Obj(map["success" := Bool(false), "message" := Str(CatchMessage(backend.message))]))
    ensures backend.Fetched? && Floors(backend.body).Some? ==>
      r.0 == JsonResponse(backend.status, Arr(Floors(backend.body).value))
    ensures backend.Fetched? && Floors(backend.body).None? ==>
      r.0 == JsonResponse(500, Obj(map["success" := Bool(false), "message" := Str(PropertyOfNullMessage)]))
  {
    var sent := ForwardedHeaders(auth);
    match backend
    case FetchFailed(message) =>
      (JsonResponse(500, Obj(map["success" := Bool(false), "message" := Str(CatchMessage(message))])), sent)
    case Fetched(status, body) =>
      match Floors(body)
      case None =>
        (JsonResponse(500, Obj(map["success" := Bool(false), "message" := Str(PropertyOfNullMessage)])), sent)
      case Some(floors) => (JsonResponse(status, Arr(floors)), sent)
  }
}
