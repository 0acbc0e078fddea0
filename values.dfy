/**
  The values the authentication store exchanges with its collaborators: profile
  records as the HTTP API returns them, the outcome of one request, and the
  notifications (toasts) shown to the user.
 */
module Values {

  datatype Option<+T> = None | Some(value: T)

  /** A field value of a profile record (the scalar values of a JSON object). */
  datatype Value = Null | Bool(b: bool) | Num(n: int) | Str(s: string)

  /** A user profile: a JSON object, keyed by field name. */
  type Profile = map<string, Value>

  /** `authUser._id`; `None` stands for JavaScript's `undefined` when the record has no `_id`. */
  function IdOf(p: Profile): Option<Value>
  {
    if "_id" in p then Some(p["_id"]) else None
  }

  /**
    What an awaited HTTP request produced: the response body on success, or
    on failure the `message` field of the error response body, if the error
    carried a response with a body with such a field.
   */
  datatype Outcome = Ok(data: Profile) | Err(serverMsg: Option<string>)

  /** A notification shown to the user. */
  datatype Toast = Success(text: string) | Error(text: string)

  /**
    The text of an error notification: the server's message when it is
    present and truthy (a non-empty string), the operation's fixed fallback
    text otherwise.
   */
  function ErrorText(serverMsg: Option<string>, fallback: string): (text: string)
    ensures serverMsg.Some? && serverMsg.value != "" ==> text == serverMsg.value
    ensures serverMsg.None? || serverMsg.value == "" ==> text == fallback
    ensures fallback != "" ==> text != ""
  {
    match serverMsg
    case Some(m) => if m != "" then m else fallback
    case None => fallback
  }

  /**
    The object spread `{ ...current, ...data }`: every field of `data`, and
    every field of `current` that `data` does not override. Spreading `null`
    contributes no fields.
   */
  function Merge(current: Option<Profile>, data: Profile): (r: Profile)
    ensures r.Keys == data.Keys + (if current.Some? then current.value.Keys else {})
    ensures forall k :: k in data ==> r[k] == data[k]
    ensures forall k :: k in r && k !in data ==> current.Some? && k in current.value && r[k] == current.value[k]
    ensures current.None? ==> r == data
  {
    match current
    case None => data
    case Some(u) => u + data
  }
}
