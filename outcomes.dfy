/**
 * Values shared by every screen: an optional value (TypeScript's `T | null | undefined`),
 * the value a rejected promise carries, and the outcome of one awaited service call.
 */
module Outcomes {

  datatype Option<+T> = None | Some(value: T)

  /**
   * What a `catch` clause receives: an `Error` object with its message, or any other non-null
   * object, whose `message` property is read as a text (an absent or non-text property reads as "").
   */
  datatype Thrown = ErrorObject(message: string) | OtherObject(message: string)

  /**
   * The settled state of one awaited service call. The network client itself is not modelled:
   * each call site is handed the outcome the backend would produce.
   */
  datatype Outcome<+T> = Resolved(value: T) | Rejected(error: Thrown)

  /** A notification shown to the user (a `Swal` dialog or toast, or an `alert`). */
  datatype Notice = SuccessNotice(text: string) | ErrorNotice(text: string)

  /** `error instanceof Error ? error.message : fallback` (an empty message is kept). */
  function InstanceMessage(e: Thrown, fallback: string): string
  {
    match e
    case ErrorObject(m) => m
    case OtherObject(_) => fallback
  }

  /** `error.message || fallback` (an empty message falls back). */
  function MessageOr(e: Thrown, fallback: string): string
  {
    match e
    case ErrorObject(m) => if m != "" then m else fallback
    case OtherObject(m) => if m != "" then m else fallback
  }

  /**
   * The two error-reporting idioms differ on an `Error` whose message is empty (the
   * `instanceof` form shows an empty text, the `||` form the fallback) and on a non-`Error`
   * object carrying a message of its own (the `||` form shows it, the `instanceof` form the
   * fallback); on every other thrown object they agree.
   */
  lemma MessageIdiomsDiffer(e: Thrown, fallback: string)
    ensures MessageOr(e, fallback) != "" || fallback == ""
    ensures InstanceMessage(e, fallback) != MessageOr(e, fallback)
            <==> (e == ErrorObject("") && fallback != "")
                 || (e.OtherObject? && e.message != "" && e.message != fallback)
  {
  }
}
