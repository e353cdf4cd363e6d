/** The process request the Java server binds its JSON body to, and the
    session key it reads out of the loosely typed `session` object. */
module ProcessRequest {
  import opened Common
  import opened Text

  /** `PhoneAuthProcessRequest`: `use_case`, `credential` and a `session`
      kept as whatever JSON value the client sent (`JNull` is null). */
  datatype PhoneAuthProcessRequest = PhoneAuthProcessRequest(useCase: Option<string>,
                                                             credential: Option<string>,
                                                             session: JsonValue)

  /** `toString()` of the object the JSON decoder builds for a value: the
      string itself, the decimal number, "true"/"false", "null", "[a, b]"
      for a list and "{k=v, ...}" for a map. The map is a `LinkedHashMap`:
      a repeated name keeps the place of its first occurrence and the value
      of its last. */
  function JavaToString(v: JsonValue): (r: string)
    ensures v.JString? ==> r == v.s
    ensures v.JInt? && v.n >= 0 ==> (forall k :: 0 <= k < |r| ==> '0' <= r[k] <= '9') && DigitsValue(r) == v.n
    ensures v.JArray? ==> |r| >= 2 && r[0] == '[' && r[|r| - 1] == ']'
    ensures v.JObject? ==> |r| >= 2 && r[0] == '{' && r[|r| - 1] == '}'
    decreases v, 1
  {
    match v
    case JNull => "null"
    case JBool(b) => if b then "true" else "false"
    case JInt(n) =>
      if n >= 0 then NatDigitsRoundTrip(n); Decimal(n) else Decimal(n)
    case JString(s) => s
    case JArray(items) => "[" + ItemsText(v, items) + "]"
    case JObject(members) => "{" + MembersText(v, members, Names(members)) + "}"
  }

  /** The elements of a list, separated by ", ". */
  function ItemsText(enclosing: JsonValue, items: seq<JsonValue>): string
    requires forall i :: 0 <= i < |items| ==> items[i] < enclosing
    decreases enclosing, 0, |items|
  {
    if items == [] then ""
    else if |items| == 1 then JavaToString(items[0])
    else JavaToString(items[0]) + ", " + ItemsText(enclosing, items[1..])
  }

  /** The member names of an object, each once, in order of first occurrence:
      the iteration order of the map the decoder fills. */
  function Names(members: seq<(string, JsonValue)>): (r: seq<string>)
    ensures forall k :: k in r ==> Member(members, k).Some?
    ensures forall i :: 0 <= i < |members| ==> members[i].0 in r
    ensures forall i, j :: 0 <= i < j < |r| ==> r[i] != r[j]
  {
    if members == [] then []
    else
      var front := members[..|members| - 1];
      var name := members[|members| - 1].0;
      assert forall i :: 0 <= i < |front| ==> front[i] == members[i];
      if name in Names(front) then Names(front) else Names(front) + [name]
  }

  /** The entries of a map as "k=v", one per name in `names`, separated by
      ", "; each value is the last one given for its name. */
  function MembersText(enclosing: JsonValue, members: seq<(string, JsonValue)>, names: seq<string>): string
    requires forall i :: 0 <= i < |members| ==> members[i].1 < enclosing
    requires forall k :: k in names ==> Member(members, k).Some?
    decreases enclosing, 0, |names|
  {
    if names == [] then ""
    else
      var value := Member(members, names[0]).value;
      assert value < enclosing;
      var entry := names[0] + "=" + JavaToString(value);
      if |names| == 1 then entry else entry + ", " + MembersText(enclosing, members, names[1..])
  }

  /** `getSessionKey()`: when `session` is a map whose "session_key" is not
      null, that value's string form; otherwise null. It reads `session` only. */
  function GetSessionKey(session: JsonValue): (r: Option<string>)
    ensures r.Some? <==> session.JObject? && Member(session.members, "session_key").Some?
                         && !Member(session.members, "session_key").value.JNull?
    ensures r.Some? ==> r.value == JavaToString(Member(session.members, "session_key").value)
  {
    if session.JObject? then
      match Member(session.members, "session_key")
      case Some(key) => if key.JNull? then None else Some(JavaToString(key))
      case None => None
    else None
  }

  /** A string session key comes back exactly as sent. */
  lemma StringSessionKey(members: seq<(string, JsonValue)>, key: string)
    requires Member(members, "session_key") == Some(JString(key))
    ensures GetSessionKey(JObject(members)) == Some(key)
  {
  }

  /** A numeric session key comes back as its decimal text, which reads back
      as the same number. */
  lemma {:induction false} NumericSessionKey(members: seq<(string, JsonValue)>, n: nat)
    requires Member(members, "session_key") == Some(JInt(n))
    ensures GetSessionKey(JObject(members)) == Some(NatDigits(n))
    ensures DigitsValue(GetSessionKey(JObject(members)).value) == n
  {
    NatDigitsRoundTrip(n);
  }

  /** Whatever is not a map, null included, has no session key. */
  lemma NoSessionKeyOutsideMaps(session: JsonValue)
    requires !session.JObject?
    ensures GetSessionKey(session).None?
  {
  }
}
