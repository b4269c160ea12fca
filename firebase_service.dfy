/**
 * The push-sending service: a single-device send with fallback title, body
 * and data, and a multicast that short-circuits on an empty token list.
 */
module FirebaseService {
  import opened Wrappers
  import opened JsStrings
  import opened Models
  import opened External

  const DEFAULT_TITLE := "Notification"
  const DEFAULT_BODY := "You have a new notification"
  const TOKEN_REQUIRED := "Device token is required"

  /**
   * The message `sendNotification` builds: rejected without a token; otherwise
   * addressed to exactly that token, with a non-empty title and body that are
   * the request's own whenever those are non-empty, and the request's data or
   * an empty map.
   */
  function BuildMessage(req: NotificationRequest): (r: Result<Message, Fault>)
    ensures r.Failure? <==> !Truthy(req.token)
    ensures r.Failure? ==> r.error == ValidationFault(TOKEN_REQUIRED)
    ensures r.Success? ==> r.value.token == req.token.value
    ensures r.Success? ==> Truthy(r.value.notification.title) && Truthy(r.value.notification.body)
    ensures r.Success? && Truthy(req.title) ==> r.value.notification.title == req.title
    ensures r.Success? && !Truthy(req.title) ==> r.value.notification.title == Some(DEFAULT_TITLE)
    ensures r.Success? && Truthy(req.body) ==> r.value.notification.body == req.body
    ensures r.Success? && !Truthy(req.body) ==> r.value.notification.body == Some(DEFAULT_BODY)
    ensures r.Success? ==> (req.data.Some? ==> r.value.data == req.data.value) && (req.data.None? ==> r.value.data == map[])
  {
    if !Truthy(req.token) then Failure(ValidationFault(TOKEN_REQUIRED))
    else
      Success(Message(
        Notification(Some(OrElse(req.title, DEFAULT_TITLE)), Some(OrElse(req.body, DEFAULT_BODY))),
        DataOrEmpty(req.data),
        req.token.value))
  }

  /**
   * `firebaseService.sendNotification(request)`: a missing token throws before
   * the transport is reached; otherwise exactly one send of the built message,
   * whose message id or error is returned unchanged.
   */
  function SendNotification(req: NotificationRequest, transport: Transport): (r: Traced<Result<string, Fault>>)
    ensures !Truthy(req.token) ==> r.calls == [] && r.value == Failure(ValidationFault(TOKEN_REQUIRED))
    ensures Truthy(req.token) ==> r.calls == [SendCall(BuildMessage(req).value)]
    ensures Truthy(req.token) ==> match transport.send(BuildMessage(req).value)
      case Success(id) => r.value == Success(id)
      case Failure(e) => r.value == Failure(TransportFault(e))
  {
    match BuildMessage(req)
    case Failure(f) => Traced(Failure(f), [])
    case Success(m) =>
      match transport.send(m)
      case Success(id) => Traced(Success(id), [SendCall(m)])
      case Failure(e) => Traced(Failure(TransportFault(e)), [SendCall(m)])
  }

  /** The multicast message: title and body verbatim (no fallbacks), `data || {}`, the tokens unchanged. */
  function MulticastFor(req: BroadcastNotificationRequest, tokens: seq<string>): (m: MulticastMessage)
    ensures m.notification.title == req.title && m.notification.body == req.body
    ensures req.data.Some? ==> m.data == req.data.value
    ensures req.data.None? ==> m.data == map[]
    ensures m.tokens == tokens
  {
    MulticastMessage(Notification(req.title, req.body), DataOrEmpty(req.data), tokens)
  }

  /** The answer for an empty audience. */
  const EMPTY_BATCH := BatchResponse(0, 0, [])

  /**
   * `firebaseService.sendNotificationToAll(request, tokens)`: no tokens gives
   * `{0, 0, []}` with no transport call; otherwise exactly one multicast of
   * the whole list, whose answer is returned unchanged. With a well-behaved
   * transport the answer accounts for every submitted token.
   */
  function SendNotificationToAll(req: BroadcastNotificationRequest, tokens: seq<string>, transport: Transport)
    : (r: Traced<Result<BatchResponse, Fault>>)
    ensures tokens == [] ==> r.calls == [] && r.value == Success(EMPTY_BATCH)
    ensures tokens != [] ==> r.calls == [MulticastCall(MulticastFor(req, tokens))]
    ensures tokens != [] ==> match transport.sendEachForMulticast(MulticastFor(req, tokens))
      case Success(b) => r.value == Success(b)
      case Failure(e) => r.value == Failure(TransportFault(e))
    ensures WellBehaved(transport) && r.value.Success? ==> Accounts(r.value.value, |tokens|)
  {
    if |tokens| == 0 then Traced(Success(EMPTY_BATCH), [])
    else
      var m := MulticastFor(req, tokens);
      match transport.sendEachForMulticast(m)
      case Success(b) => Traced(Success(b), [MulticastCall(m)])
      case Failure(e) => Traced(Failure(TransportFault(e)), [MulticastCall(m)])
  }
}
