/**
 * What the pages receive from the HTTP layer and what they emit besides
 * state: the reply or error of one API call, and the toasts, navigations
 * and requests a handler produces, recorded in order.
 */
module Client {
  import Js

  datatype Option<T> = None | Some(value: T)

  /** A rejected API call. `NoResponse` is a network failure (or any other
      exception) where `error.response` is undefined; otherwise the server's
      status code, its `data.message` and its `data.error.code`. */
  datatype HttpError =
    | NoResponse
    | ErrorResponse(status: int, message: Option<string>, errorCode: Option<int>)

  /** The result of awaiting one API call: its response body, or the error. */
  datatype Outcome<T> = Reply(body: T) | Failure(error: HttpError)

  datatype ToastKind = Success | Error

  /** An effect a handler performs outside its own state. */
  datatype Event =
    | Toast(kind: ToastKind, message: string)
    | Navigate(path: string)
    | Request(verb: string, path: string)
    | ClosedByParent
    | LocationAssigned(href: string)

  /** `error.response?.data?.message || fallback`: the server's message when
      it sent a non-empty one, the fallback otherwise. */
  function MessageOr(e: HttpError, fallback: string): (m: string)
    ensures e.ErrorResponse? && e.message.Some? && e.message.value != "" ==> m == e.message.value
    ensures !(e.ErrorResponse? && e.message.Some? && e.message.value != "") ==> m == fallback
    ensures m == OrString(if e.ErrorResponse? then e.message else None, fallback)
    ensures fallback != "" ==> m != ""
  {
    match e
    case ErrorResponse(_, Some(msg), _) => if msg != "" then msg else fallback
    case _ => fallback
  }

  /** An optional string as the JavaScript value it is: `undefined` when absent. */
  function StrValue(x: Option<string>): Js.Value<()> {
    match x
    case Some(s) => Js.Str(s)
    case None => Js.Undefined
  }

  /** `x || fallback` for an optional string. */
  function OrString(x: Option<string>, fallback: string): (r: string)
    ensures x.Some? && x.value != "" ==> r == x.value
    ensures !(x.Some? && x.value != "") ==> r == fallback
    ensures Js.Or(StrValue(x), Js.Str(fallback)) == Js.Str(r)
    ensures fallback != "" ==> r != ""
  {
    if x.Some? && x.value != "" then x.value else fallback
  }
}
