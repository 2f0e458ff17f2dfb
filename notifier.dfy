/** The outcome of posting one message to the incoming-webhook URL. The
    request itself and its transport are not modelled: what comes back is
    an input, either a transport error or the text of the response body. */
module Notifier {

  datatype SlackReply = TransportError(error: string) | Replied(body: string)

  datatype Delivery = Delivered | Failed(reason: string)

  const NON_OK_REASON := "Non-ok response returned from Slack"

  /** The error that `SendSlackNotification` returns for a reply: none
      exactly when the response body is the literal `ok`. */
  function ReplyOutcome(reply: SlackReply): (d: Delivery)
    ensures d.Delivered? <==> reply == Replied("ok")
    ensures reply.TransportError? ==> d == Failed(reply.error)
    ensures reply.Replied? && !d.Delivered? ==> d == Failed(NON_OK_REASON)
  {
    match reply
    case TransportError(e) => Failed(e)
    case Replied(body) => if body != "ok" then Failed(NON_OK_REASON) else Delivered
  }
}
