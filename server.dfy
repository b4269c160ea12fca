/**
 * The inline `POST /send-notification` and `POST /send-notification/all`
 * handlers of the server entry point, which talk to the store and the
 * transport directly instead of going through the service layer.
 */
module Server {
  import opened Wrappers
  import opened JsStrings
  import opened Models
  import opened External
  import opened SupabaseService
  import FirebaseService
  import NotificationController

  /** The one response text of its own; the others are those of `NotificationController`. */
  const NO_DEVICE_TOKENS := "No device tokens found"

  /**
   * `POST /send-notification`: a missing token is a 400 with no transport
   * call; otherwise one send of the message with fallback title, body and
   * data, addressed to exactly the given token; a transport error is a 500.
   */
  function PostSendNotification(req: NotificationRequest, transport: Transport): (r: Traced<Response>)
    ensures !Truthy(req.token) ==> r.value == BadRequest(FirebaseService.TOKEN_REQUIRED) && r.calls == []
    ensures Truthy(req.token) ==> r.calls == [SendCall(FirebaseService.BuildMessage(req).value)]
    ensures Truthy(req.token) ==> !r.value.BadRequest?
    ensures r.value.Sent? <==> Truthy(req.token) && transport.send(FirebaseService.BuildMessage(req).value).Success?
    ensures r.value.Sent? ==> r.value.messageId == transport.send(FirebaseService.BuildMessage(req).value).value
    ensures Truthy(req.token) && transport.send(FirebaseService.BuildMessage(req).value).Failure? ==>
              r.value == InternalError(NotificationController.SEND_FAILED, transport.send(FirebaseService.BuildMessage(req).value).error)
  {
    match FirebaseService.BuildMessage(req)
    case Failure(f) => Traced(BadRequest(f.message), [])
    case Success(m) =>
      match transport.send(m)
      case Success(id) => Traced(Sent(id), [SendCall(m)])
      case Failure(e) => Traced(InternalError(NotificationController.SEND_FAILED, e), [SendCall(m)])
  }

  /**
   * `POST /send-notification/all`. The calls made are a prefix of: the
   * unfiltered users query, the device query on exactly those ids, the
   * multicast of the usable tokens; each guard that fails stops the sequence,
   * and each guard that passes leads to the next call. Unlike the
   * service-layer version it has two "no tokens" exits: no matching device
   * rows at all, and matching rows whose tokens are all absent or blank.
   */
  function PostSendNotificationAll(req: BroadcastNotificationRequest, store: Store, transport: Transport)
    : (r: Traced<Response>)
    ensures r.value.BadRequest? <==> !req.HasTitleAndBody()
    ensures !req.HasTitleAndBody() ==> r.value == BadRequest(NotificationController.TITLE_BODY_REQUIRED) && r.calls == []
    ensures req.HasTitleAndBody() ==> 1 <= |r.calls| <= 3 && r.calls[0] == UsersQuery
    ensures |r.calls| >= 2 ==> store.users.Available? && store.users.rows != [] &&
                                r.calls[1] == DevicesQuery(NotificationController.AudienceIds(store))
    ensures |r.calls| == 3 ==> store.devices.Available? && NotificationController.AudienceTokens(store) != [] &&
                                r.calls[2] == MulticastCall(FirebaseService.MulticastFor(req, NotificationController.AudienceTokens(store)))
    ensures req.HasTitleAndBody() && store.users.Available? && store.users.rows != [] ==> |r.calls| >= 2
    ensures (req.HasTitleAndBody() && store.users.Available? && store.users.rows != [] && store.devices.Available? &&
             NotificationController.AudienceTokens(store) != []) ==> |r.calls| == 3
    ensures req.HasTitleAndBody() && store.users == Available([]) ==> r.calls == [UsersQuery]
    ensures r.value == NothingToSend(NotificationController.NO_USERS) <==> req.HasTitleAndBody() && store.users == Available([])
    ensures r.value.InternalError? <==>
              req.HasTitleAndBody() &&
              (store.users.Unavailable? ||
               (store.users.rows != [] && store.devices.Unavailable?) ||
               (|r.calls| == 3 && transport.sendEachForMulticast(r.calls[2].multicast).Failure?))
    ensures r.value.Dispatched? <==> |r.calls| == 3 && transport.sendEachForMulticast(r.calls[2].multicast).Success?
    ensures r.value.Dispatched? ==>
              var b := transport.sendEachForMulticast(r.calls[2].multicast).value;
              r.value == Dispatched(b.successCount, b.failureCount, |NotificationController.AudienceTokens(store)|, b.responses)
    ensures req.HasTitleAndBody() && store.users.Unavailable? ==>
              r.value == InternalError(NotificationController.BROADCAST_FAILED, store.users.message)
    ensures (req.HasTitleAndBody() && store.users.Available? && store.users.rows != [] && store.devices.Unavailable?) ==>
              r.value == InternalError(NotificationController.BROADCAST_FAILED, store.devices.message)
    ensures |r.calls| == 3 && transport.sendEachForMulticast(r.calls[2].multicast).Failure? ==>
              r.value == InternalError(NotificationController.BROADCAST_FAILED, transport.sendEachForMulticast(r.calls[2].multicast).error)
    ensures r.value == NothingToSend(NO_DEVICE_TOKENS) <==>
              req.HasTitleAndBody() && store.users.Available? && store.users.rows != [] && store.devices.Available? &&
              MatchingRows(store.devices.rows, NotificationController.AudienceIds(store)) == []
    ensures r.value == NothingToSend(NotificationController.NO_VALID_TOKENS) <==>
              req.HasTitleAndBody() && store.users.Available? && store.users.rows != [] && store.devices.Available? &&
              MatchingRows(store.devices.rows, NotificationController.AudienceIds(store)) != [] &&
              NotificationController.AudienceTokens(store) == []
  {
    if !req.HasTitleAndBody() then Traced(BadRequest(NotificationController.TITLE_BODY_REQUIRED), [])
    else
      var users := SelectUsers(store);
      match users.value
      case Failure(e) => Traced(InternalError(NotificationController.BROADCAST_FAILED, e), users.calls)
      case Success(rows) =>
        if |rows| == 0 then Traced(NothingToSend(NotificationController.NO_USERS), users.calls)
        else
          assert UserIds(rows) == NotificationController.AudienceIds(store);
          var rest := NotifyUsers(req, store, UserIds(rows), transport);
          assert (users.calls + rest.calls)[1..] == rest.calls;
          Traced(rest.value, users.calls + rest.calls)
  }

  /** The part of `POST /send-notification/all` after the user ids are known. */
  function NotifyUsers(req: BroadcastNotificationRequest, store: Store, userIds: seq<string>, transport: Transport)
    : (r: Traced<Response>)
    ensures 1 <= |r.calls| <= 2 && r.calls[0] == DevicesQuery(userIds)
    ensures r.value.NothingToSend? || r.value.InternalError? || r.value.Dispatched?
    ensures |r.calls| == 2 ==> store.devices.Available? && TokensFor(store.devices.rows, userIds) != [] &&
                                r.calls[1] == MulticastCall(FirebaseService.MulticastFor(req, TokensFor(store.devices.rows, userIds)))
    ensures store.devices.Available? && TokensFor(store.devices.rows, userIds) != [] ==> |r.calls| == 2
    ensures r.value.NothingToSend? <==> store.devices.Available? && TokensFor(store.devices.rows, userIds) == []
    ensures r.value.NothingToSend? ==> |r.calls| == 1
    ensures r.value.InternalError? <==>
              store.devices.Unavailable? || (|r.calls| == 2 && transport.sendEachForMulticast(r.calls[1].multicast).Failure?)
    ensures r.value.Dispatched? <==> |r.calls| == 2 && transport.sendEachForMulticast(r.calls[1].multicast).Success?
    ensures r.value.Dispatched? ==>
              var b := transport.sendEachForMulticast(r.calls[1].multicast).value;
              r.value == Dispatched(b.successCount, b.failureCount, |TokensFor(store.devices.rows, userIds)|, b.responses)
    ensures store.devices.Unavailable? ==> r.value == InternalError(NotificationController.BROADCAST_FAILED, store.devices.message)
    ensures |r.calls| == 2 && transport.sendEachForMulticast(r.calls[1].multicast).Failure? ==>
              r.value == InternalError(NotificationController.BROADCAST_FAILED, transport.sendEachForMulticast(r.calls[1].multicast).error)
    ensures store.devices.Available? && MatchingRows(store.devices.rows, userIds) == [] ==>
              r.value == NothingToSend(NO_DEVICE_TOKENS)
    ensures store.devices.Available? && MatchingRows(store.devices.rows, userIds) != [] &&
            TokensFor(store.devices.rows, userIds) == [] ==>
              r.value == NothingToSend(NotificationController.NO_VALID_TOKENS)
  {
    var devices := SelectDevicesIn(store, userIds);
    match devices.value
    case Failure(e) => Traced(InternalError(NotificationController.BROADCAST_FAILED, e), devices.calls)
    case Success(data) =>
      if |data| == 0 then Traced(NothingToSend(NO_DEVICE_TOKENS), devices.calls)
      else
        var tokens := FilterUsableTokens(TokenColumn(data));
        if |tokens| == 0 then Traced(NothingToSend(NotificationController.NO_VALID_TOKENS), devices.calls)
        else
          var m := FirebaseService.MulticastFor(req, tokens);
          match transport.sendEachForMulticast(m)
          case Failure(e) => Traced(InternalError(NotificationController.BROADCAST_FAILED, e), devices.calls + [MulticastCall(m)])
          case Success(b) =>
            Traced(Dispatched(b.successCount, b.failureCount, |tokens|, b.responses), devices.calls + [MulticastCall(m)])
  }

  /**
   * The inline single-send handler and the service-layer one make the same
   * calls and agree on every response, except that a missing token is a 400
   * here and a 500 (carrying the same message) there.
   */
  lemma SingleSendHandlersAgree(req: NotificationRequest, transport: Transport)
    ensures var s := PostSendNotification(req, transport);
            var c := NotificationController.SendNotification(req, transport);
            s.calls == c.calls &&
            (if Truthy(req.token) then s.value == c.value
             else s.value == BadRequest(FirebaseService.TOKEN_REQUIRED) &&
                  c.value == InternalError(NotificationController.SEND_FAILED, FirebaseService.TOKEN_REQUIRED))
  {
  }

  /**
   * The inline broadcast handler and the service-layer one make the same calls
   * in the same order and agree on every response, except that when no device
   * row matches this one says "No device tokens found" where the other says
   * "No valid device tokens found".
   */
  lemma BroadcastHandlersAgree(req: BroadcastNotificationRequest, store: Store, transport: Transport)
    ensures var s := PostSendNotificationAll(req, store, transport);
            var c := NotificationController.SendNotificationToAll(req, store, transport);
            s.calls == c.calls &&
            (if s.value == NothingToSend(NO_DEVICE_TOKENS) then c.value == NothingToSend(NotificationController.NO_VALID_TOKENS)
             else s.value == c.value)
  {
  }

  /**
   * The `onlyEnabled` field of the request changes nothing: the users query
   * is issued unfiltered.
   */
  lemma OnlyEnabledIsIgnored(req: BroadcastNotificationRequest, store: Store, transport: Transport, flag: Option<bool>)
    ensures PostSendNotificationAll(req.(onlyEnabled := flag), store, transport) ==
            PostSendNotificationAll(req, store, transport)
  {
  }

  /** The HTTP codes of the inline broadcast: 400 exactly without title and body, 500 exactly when a query or the transport throws. */
  lemma BroadcastStatus(req: BroadcastNotificationRequest, store: Store, transport: Transport)
    ensures var r := PostSendNotificationAll(req, store, transport);
            (r.value.Status() == 400 <==> !req.HasTitleAndBody()) &&
            (r.value.Status() == 500 <==>
               req.HasTitleAndBody() &&
               (store.users.Unavailable? ||
                (store.users.rows != [] && store.devices.Unavailable?) ||
                (|r.calls| == 3 && transport.sendEachForMulticast(r.calls[2].multicast).Failure?)))
  {
  }
}
