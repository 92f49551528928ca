/** `POST /api/auth/login`: a mock credential check against one fixed account. */
module LoginRoute {
  import opened Options
  import opened JsValues
  import opened Http

  const TestEmail: string := "test@example.com"
  const TestPassword: string := "password"

  /** The account the mock returns on success. */
  const TestUser: JsValue := Obj(map[
    "id" := Str("user-123"),
    "email" := Str("test@example.com"),
    "name" := Str("Test User"),
    "role" := Str("Manager"),
    "token" := Str("user-token-123")])

  const SuccessBody: JsValue := Obj(map["success" := Bool(true), "user" := TestUser])
  const InvalidBody: JsValue := Obj(map["success" := Bool(false), "message" := Str("Invalid email or password")])
  const ErrorBody: JsValue := Obj(map["success" := Bool(false), "message" := Str("An error occurred during login")])

  /** `email === "test@example.com" && password === "password"`: strict, case-sensitive, untrimmed. */
  predicate Matches(body: JsValue)
    requires !Nullish(body)
  {
    Prop(body, "email") == Str(TestEmail) && Prop(body, "password") == Str(TestPassword)
  }

  /** `POST` for the parsed body, None when the body is not JSON. */
  function Post(body: Option<JsValue>): (r: Response)
    ensures body.None? || Nullish(body.value) ==> r == JsonResponse(500, ErrorBody)
    ensures body.Some? && !Nullish(body.value) && Matches(body.value) ==> r == JsonResponse(200, SuccessBody)
    ensures body.Some? && !Nullish(body.value) && !Matches(body.value) ==> r == JsonResponse(401, InvalidBody)
  {
    if body.None? || Nullish(body.value) then JsonResponse(500, ErrorBody)
    else if Matches(body.value) then JsonResponse(200, SuccessBody)
    else JsonResponse(401, InvalidBody)
  }

  /** Only the exact pair of strings logs in; any other value of either field is refused. */
  lemma OnlyExactCredentials(email: string, password: string, rest: map<string, JsValue>)
    ensures
      var body := Obj(rest["email" := Str(email)]["password" := Str(password)]);
      Post(Some(body)).status == 200 <==> email == TestEmail && password == TestPassword
  {
    var body := Obj(rest["email" := Str(email)]["password" := Str(password)]);
    assert Prop(body, "email") == Str(email) && Prop(body, "password") == Str(password);
  }

  /** An upper-case letter or a surrounding space is enough to be refused. */
  lemma NoNormalisation()
    ensures Post(Some(Obj(map["email" := Str("Test@example.com"), "password" := Str("password")]))).status == 401
    ensures Post(Some(Obj(map["email" := Str("test@example.com "), "password" := Str("password")]))).status == 401
  {
    assert Str("Test@example.com") != Str(TestEmail) by {
      assert "Test@example.com"[0] != TestEmail[0];
    }
    assert Str("test@example.com ") != Str(TestEmail) by {
      assert |"test@example.com "| != |TestEmail|;
    }
  }
}
