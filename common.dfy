/** Values shared by every part of the model: optional values (Java's null,
    Go's "comma ok"), the JSON values that travel in request and response
    bodies, and the exceptions and errors the two SDKs raise. */
module Common {

  /** An optional value: `None` stands for Java's null or a Go lookup miss. */
  datatype Option<T> = None | Some(value: T)

  /** A decoded JSON value. Objects keep their members in document order, as
      the decoders used by the servers do; numbers are integers only. */
  datatype JsonValue =
    | JNull
    | JBool(b: bool)
    | JInt(n: int)
    | JString(s: string)
    | JArray(items: seq<JsonValue>)
    | JObject(members: seq<(string, JsonValue)>)

  /** The value of member `key`; when a name repeats, the last one wins
      (a decoder that stores members into a hash map overwrites). */
  function Member(members: seq<(string, JsonValue)>, key: string): (r: Option<JsonValue>)
    ensures r.None? <==> forall i :: 0 <= i < |members| ==> members[i].0 != key
    ensures r.Some? ==> exists i :: 0 <= i < |members| && members[i] == (key, r.value)
                                    && forall j :: i < j < |members| ==> members[j].0 != key
  {
    if |members| == 0 then None
    else if members[|members| - 1].0 == key then Some(members[|members| - 1].1)
    else Member(members[..|members| - 1], key)
  }

  /** A Java exception, as far as the handlers tell them apart. `message` is
      `getMessage()`, which may be null. */
  datatype Thrown =
    | MagicalAuthError(code: Option<string>, status: int, message: Option<string>,
                       requestId: Option<string>, details: Option<seq<(string, JsonValue)>>)
    | IllegalArgument(message: Option<string>)
    | IllegalState(message: Option<string>)
    | OtherException(message: Option<string>)

  /** What a Java call does: it returns a value or throws. */
  datatype Outcome<T> = Returned(value: T) | Threw(thrown: Thrown)

  /** A Go SDK error: the SDK's structured error, or any other `error`.
      `errorText` and `text` are what the error's `Error()` method returns. */
  datatype GoError =
    | SdkError(code: string, message: string, status: int, requestId: string, errorText: string,
               details: Option<map<string, JsonValue>>)
    | OtherError(text: string)

  /** What a Go call returns: a value, or a non-nil error. */
  datatype GoResult<T> = Ok(value: T) | Err(error: GoError)
}
