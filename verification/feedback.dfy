/**
 * The side effects the modal controllers emit: toasts through the feedback
 * context, and the open/close calls they make on the dialog they own.
 */
module Feedback {

  datatype Kind = Success | Warning | Error

  /** The second argument of a toast: a literal message, or the message of a caught error. */
  datatype Detail = Text(text: string) | Failure(message: string)

  /** One call to `successFeedbackToast`, `warningFeedbackToast` or `errorFeedbackToast`. */
  datatype Notification = Toast(kind: Kind, subject: string, detail: Detail)

  /**
   * The dialog's visibility after a sequence of calls on its handle:
   * `true` for `onOpenModal`, `false` for `onCloseModal`. Closed initially.
   */
  function Visibility(calls: seq<bool>): bool
  {
    if calls == [] then false else calls[|calls| - 1]
  }
}
