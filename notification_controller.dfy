/**
 * The notification endpoints as served through the service layer: each
 * request becomes one response, after a fixed sequence of store reads and
 * transport calls that stops at the first guard that fails.
 */
module NotificationController {
  import opened Wrappers
  import opened JsStrings
  import opened Models
  import opened External
  import opened SupabaseService
  import FirebaseService

  const SEND_FAILED := "Failed to send notification"
  const BROADCAST_FAILED := "Failed to send notifications"
  const TITLE_BODY_REQUIRED := "Title and body are required"
  const NO_USERS := "No users found to send notifications to"
  const NO_VALID_TOKENS := "No valid device tokens found"

  /**
   * `sendNotification`: every error the service throws, a missing token
   * included, becomes a 500 carrying the error's message; a success returns
   * the transport's message id unchanged.
   */
  function SendNotification(req: NotificationRequest, transport: Transport): (r: Traced<Response>)
    ensures !r.value.BadRequest?
    ensures !Truthy(req.token) ==> r.calls == [] && r.value == InternalError(SEND_FAILED, FirebaseService.TOKEN_REQUIRED)
    ensures r.calls == FirebaseService.SendNotification(req, transport).calls
    ensures r.value.Sent? <==> Truthy(req.token) && transport.send(FirebaseService.BuildMessage(req).value).Success?
    ensures r.value.Sent? ==> r.value.messageId == transport.send(FirebaseService.BuildMessage(req).value).value
    ensures Truthy(req.token) && transport.send(FirebaseService.BuildMessage(req).value).Failure? ==>
              r.value == InternalError(SEND_FAILED, transport.send(FirebaseService.BuildMessage(req).value).error)
  {
    var sent := FirebaseService.SendNotification(req, transport);
    match sent.value
    case Success(id) => Traced(Sent(id), sent.calls)
    case Failure(f) => Traced(InternalError(SEND_FAILED, f.message), sent.calls)
  }

  /** The ids the broadcast targets, when the users query answers. */
  function AudienceIds(store: Store): seq<string>
    requires store.users.Available?
  {
    UserIds(store.users.rows)
  }

  /** The tokens the broadcast resolves, when both queries answer. */
  function AudienceTokens(store: Store): seq<string>
    requires store.users.Available? && store.devices.Available?
  {
    TokensFor(store.devices.rows, AudienceIds(store))
  }

  /**
   * `sendNotificationToAll`. The calls made are a prefix of: the users query,
   * the token query on exactly those ids, the multicast of the resolved
   * tokens; each guard that fails stops the sequence, and each guard that
   * passes leads to the next call. 400 exactly when title or body is missing,
   * 500 exactly when a query or the transport throws; on dispatch the
   * transport's counts and responses become the response fields.
   */
  function SendNotificationToAll(req: BroadcastNotificationRequest, store: Store, transport: Transport): (r: Traced<Response>)
    ensures r.value.BadRequest? <==> !req.HasTitleAndBody()
    ensures !req.HasTitleAndBody() ==> r.value == BadRequest(TITLE_BODY_REQUIRED) && r.calls == []
    ensures req.HasTitleAndBody() ==> 1 <= |r.calls| <= 3 && r.calls[0] == UsersQuery
    ensures |r.calls| >= 2 ==> store.users.Available? && store.users.rows != [] &&
                                r.calls[1] == DevicesQuery(AudienceIds(store))
    ensures |r.calls| == 3 ==> store.devices.Available? && AudienceTokens(store) != [] &&
                                r.calls[2] == MulticastCall(FirebaseService.MulticastFor(req, AudienceTokens(store)))
    ensures req.HasTitleAndBody() && store.users.Available? && store.users.rows != [] ==> |r.calls| >= 2
    ensures (req.HasTitleAndBody() && store.users.Available? && store.users.rows != [] &&
             store.devices.Available? && AudienceTokens(store) != []) ==> |r.calls| == 3
    ensures req.HasTitleAndBody() && store.users == Available([]) ==> r.calls == [UsersQuery]
    ensures r.value == NothingToSend(NO_USERS) <==> req.HasTitleAndBody() && store.users == Available([])
    ensures r.value == NothingToSend(NO_VALID_TOKENS) <==>
              req.HasTitleAndBody() && store.users.Available? && store.users.rows != [] &&
              store.devices.Available? && AudienceTokens(store) == []
    ensures r.value == NothingToSend(NO_VALID_TOKENS) ==> |r.calls| == 2
    ensures r.value.InternalError? <==>
              req.HasTitleAndBody() &&
              (store.users.Unavailable? ||
               (store.users.rows != [] && store.devices.Unavailable?) ||
               (|r.calls| == 3 && transport.sendEachForMulticast(r.calls[2].multicast).Failure?))
    ensures r.value.Dispatched? <==> |r.calls| == 3 && transport.sendEachForMulticast(r.calls[2].multicast).Success?
    ensures r.value.Dispatched? ==>
              var b := transport.sendEachForMulticast(r.calls[2].multicast).value;
              r.value == Dispatched(b.successCount, b.failureCount, |AudienceTokens(store)|, b.responses)
    ensures req.HasTitleAndBody() && store.users.Unavailable? ==> r.value == InternalError(BROADCAST_FAILED, store.users.message)
    ensures (req.HasTitleAndBody() && store.users.Available? && store.users.rows != [] && store.devices.Unavailable?) ==>
              r.value == InternalError(BROADCAST_FAILED, store.devices.message)
    ensures |r.calls| == 3 && transport.sendEachForMulticast(r.calls[2].multicast).Failure? ==>
              r.value == InternalError(BROADCAST_FAILED, transport.sendEachForMulticast(r.calls[2].multicast).error)
  {
    if !req.HasTitleAndBody() then Traced(BadRequest(TITLE_BODY_REQUIRED), [])
    else
      var ids := GetAllIds(store);
      match ids.value
      case Failure(f) => Traced(InternalError(BROADCAST_FAILED, f.message), ids.calls)
      case Success(userIds) =>
        if |userIds| == 0 then Traced(NothingToSend(NO_USERS), ids.calls)
        else
          var rest := NotifyUsers(req, store, userIds, transport);
          assert (ids.calls + rest.calls)[1..] == rest.calls;
          Traced(rest.value, ids.calls + rest.calls)
  }

  /**
   * The part of `sendNotificationToAll` after the user ids are known: the
   * token query on exactly `userIds`, then, when it yields tokens, their dispatch.
   */
  function NotifyUsers(req: BroadcastNotificationRequest, store: Store, userIds: seq<string>, transport: Transport)
    : (r: Traced<Response>)
    ensures 1 <= |r.calls| <= 2 && r.calls[0] == DevicesQuery(userIds)
    ensures r.value.NothingToSend? || r.value.InternalError? || r.value.Dispatched?
    ensures |r.calls| == 2 ==> store.devices.Available? && TokensFor(store.devices.rows, userIds) != [] &&
                                r.calls[1] == MulticastCall(FirebaseService.MulticastFor(req, TokensFor(store.devices.rows, userIds)))
    ensures r.value.NothingToSend? <==> store.devices.Available? && TokensFor(store.devices.rows, userIds) == []
    ensures r.value.NothingToSend? ==> r.value.message == NO_VALID_TOKENS && |r.calls| == 1
    ensures r.value.InternalError? <==>
              store.devices.Unavailable? || (|r.calls| == 2 && transport.sendEachForMulticast(r.calls[1].multicast).Failure?)
    ensures r.value.Dispatched? <==> |r.calls| == 2 && transport.sendEachForMulticast(r.calls[1].multicast).Success?
    ensures r.value.Dispatched? ==>
              var b := transport.sendEachForMulticast(r.calls[1].multicast).value;
              r.value == Dispatched(b.successCount, b.failureCount, |TokensFor(store.devices.rows, userIds)|, b.responses)
    ensures store.devices.Unavailable? ==> r.value == InternalError(BROADCAST_FAILED, store.devices.message)
    ensures |r.calls| == 2 && transport.sendEachForMulticast(r.calls[1].multicast).Failure? ==>
              r.value == InternalError(BROADCAST_FAILED, transport.sendEachForMulticast(r.calls[1].multicast).error)
  {
    var tokens := GetFcmTokensByUserIds(store, userIds);
    match tokens.value
    case Failure(f) => Traced(InternalError(BROADCAST_FAILED, f.message), tokens.calls)
    case Success(ts) =>
      if |ts| == 0 then Traced(NothingToSend(NO_VALID_TOKENS), tokens.calls)
      else
        var request := BroadcastNotificationRequest(req.title, req.body, req.data, None);
        assert FirebaseService.MulticastFor(request, ts) == FirebaseService.MulticastFor(req, ts);
        var sent := FirebaseService.SendNotificationToAll(request, ts, transport);
        match sent.value
        case Failure(f) => Traced(InternalError(BROADCAST_FAILED, f.message), tokens.calls + sent.calls)
        case Success(b) => Traced(Dispatched(b.successCount, b.failureCount, |ts|, b.responses), tokens.calls + sent.calls)
  }

  /** A well-behaved transport makes the dispatched counts add up to the number of tokens. */
  lemma DispatchAccountsForAllTokens(req: BroadcastNotificationRequest, store: Store, transport: Transport)
    requires WellBehaved(transport)
    ensures var r := SendNotificationToAll(req, store, transport).value;
      r.Dispatched? ==> r.sentCount + r.failedCount == r.totalTokens && |r.responses| == r.totalTokens
  {
  }

  /** The HTTP codes of the broadcast: 400 exactly without title and body, 500 exactly when a query or the transport throws. */
  lemma BroadcastStatus(req: BroadcastNotificationRequest, store: Store, transport: Transport)
    ensures var r := SendNotificationToAll(req, store, transport);
            (r.value.Status() == 400 <==> !req.HasTitleAndBody()) &&
            (r.value.Status() == 500 <==>
               req.HasTitleAndBody() &&
               (store.users.Unavailable? ||
                (store.users.rows != [] && store.devices.Unavailable?) ||
                (|r.calls| == 3 && transport.sendEachForMulticast(r.calls[2].multicast).Failure?)))
  {
  }
}
