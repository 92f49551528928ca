/**
 * The page header: the user's role and a two-letter badge, either the
 * initials the backend sends or ones derived from the display name.
 */
module Header {
  import opened Options
  import opened JsValues
  import opened Http
  import Text

  /** The characters `name.split(" ")` splits on. */
  const Space: set<char> := {' '}

  /** The header's `user` state; the fields hold whatever the fallbacks produced. */
  datatype User = User(name: JsValue, initials: JsValue, role: JsValue)

  const EmptyUser: User := User(Str(""), Str(""), Str(""))

  /**
   * `words.map(n => n[0]).join("")`: the first character of every word; an
   * empty word gives `undefined`, which `join` prints as nothing.
   */
  function FirstChars(words: seq<string>): (r: string)
    ensures |r| <= |words|
    ensures forall k :: 0 <= k < |words| && words[k] != "" ==> words[k][0] in r
  {
    if words == [] then ""
    else (if words[0] == "" then "" else [words[0][0]]) + FirstChars(words[1..])
  }

  /** Each word contributes on its own: the first characters of a concatenation are the concatenation. */
  lemma {:induction false} FirstCharsAppend(a: seq<string>, b: seq<string>)
    ensures FirstChars(a + b) == FirstChars(a) + FirstChars(b)
    decreases |a|
  {
    if a == [] {
      assert a + b == b;
    } else {
      assert (a + b)[0] == a[0] && (a + b)[1..] == a[1..] + b;
      FirstCharsAppend(a[1..], b);
    }
  }

  /** One word gives its first character, or nothing when it is empty. */
  lemma FirstCharsOfOneWord(w: string)
    ensures FirstChars([w]) == (if w == "" then "" else [w[0]])
  {
    assert [w][1..] == [];
  }

  /** `.toUpperCase().substring(0, 2)` of the first characters of the space-separated words. */
  function DeriveInitials(name: string): (r: string)
    ensures |r| <= 2
    ensures |r| == if |FirstChars(Text.Split(name, Space))| < 2 then |FirstChars(Text.Split(name, Space))| else 2
    ensures Text.StartsWith(Text.ToUpper(FirstChars(Text.Split(name, Space))), r)
  {
    var all := Text.ToUpper(FirstChars(Text.Split(name, Space)));
    if |all| <= 2 then all else all[..2]
  }

  /** Two words separated by one space give the two upper-cased first letters. */
  lemma TwoWordInitials(first: string, last: string)
    requires first != "" && last != ""
    requires Text.NoneIn(first, Space) && Text.NoneIn(last, Space)
    ensures DeriveInitials(first + " " + last) == [Text.UpperChar(first[0]), Text.UpperChar(last[0])]
  {
    Text.SplitAtSeparator(first, ' ', last, Space);
    Text.SplitNoSeparator(first, Space);
    Text.SplitNoSeparator(last, Space);
    assert first + [' '] + last == first + " " + last;
    FirstCharsAppend([first], [last]);
  }

  /** A space at the start, or a run of spaces, contributes no letter. */
  lemma LeadingSpaceIgnored(name: string)
    ensures DeriveInitials(" " + name) == DeriveInitials(name)
  {
    Text.SplitAtSeparator("", ' ', name, Space);
    assert "" + [' '] + name == " " + name;
    assert Text.Split("", Space) == [""];
    FirstCharsAppend([""], Text.Split(name, Space));
  }

  /**
   * The user the header shows for the parsed body of an ok response, or None
   * when the handler throws: reading a field of null, or `split` on a name
   * that is not a string.
   */
  function UserFromBody(body: JsValue): (r: Option<User>)
    ensures r.None? <==> (Nullish(body) ||
                          (!Truthy(Prop(body, "initials")) && Truthy(Prop(body, "name")) && !Prop(body, "name").Str?))
    ensures r.Some? ==> r.value.name == Or(Prop(body, "name"), Str(""))
    ensures r.Some? ==> r.value.role == Or(Prop(body, "role"), Str(""))
    ensures r.Some? && Truthy(Prop(body, "initials")) ==> r.value.initials == Prop(body, "initials")
    ensures !Nullish(body) && !Truthy(Prop(body, "initials")) && Prop(body, "name").Str?
      ==> r == Some(User(Or(Prop(body, "name"), Str("")),
                         Or(Str(DeriveInitials(Prop(body, "name").s)), Str("")),
                         Or(Prop(body, "role"), Str(""))))
    ensures !Nullish(body) && !Truthy(Prop(body, "initials")) && !Truthy(Prop(body, "name"))
      ==> r.Some? && r.value.initials == Str("")
  {
    if Nullish(body) then None
    else
      var name := Prop(body, "name");
      var given := Prop(body, "initials");
      if !Truthy(given) && Truthy(name) && !name.Str? then None
      else
        var initials := if !Truthy(given) && Truthy(name) then Str(DeriveInitials(name.s)) else given;
        Some(User(Or(name, Str("")), Or(initials, Str("")), Or(Prop(body, "role"), Str(""))))
  }

  /** The header component's state. */
  class Header {
    var user: User
    var isLoading: bool

    constructor ()
      ensures user == EmptyUser && isLoading
    {
      user := EmptyUser;
      isLoading := true;
    }

    /** The mount effect `fetchUserData`; `reply` is how `GET /api/user` ends. */
    method FetchUserData(reply: Fetched)
      modifies this`user, this`isLoading
      ensures !isLoading
      ensures Succeeded(reply) && UserFromBody(reply.body).Some? ==> user == UserFromBody(reply.body).value
      ensures !(Succeeded(reply) && UserFromBody(reply.body).Some?) ==> user == old(user)
    {
      if Succeeded(reply) {
        var shown := UserFromBody(reply.body);
        if shown.Some? {
          user := shown.value;
        }
      }
      isLoading := false;
    }
  }
}
