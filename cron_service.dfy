/**
 * The recurring "upgrade to premium" notifier: one tick resolves the
 * non-subscribed audience and multicasts a fixed payload, catching every
 * error; the scheduler runs a tick at every interval whatever the previous
 * ticks did.
 */
module CronService {
  import opened Wrappers
  import opened Models
  import opened External
  import opened SupabaseService
  import FirebaseService

  const UPGRADE_TITLE := "Upgrade to Premium"
  const UPGRADE_BODY := "Unlock premium features and get the most out of the app!"
  const UPGRADE_DATA: map<string, string> := map["type" := "subscription_prompt", "action" := "upgrade"]

  /** The fixed payload every tick sends. */
  const UPGRADE_REQUEST := BroadcastNotificationRequest(Some(UPGRADE_TITLE), Some(UPGRADE_BODY), Some(UPGRADE_DATA), None)

  /** How a tick ended (what it logs); a tick never throws. */
  datatype TickOutcome =
    | NoNonSubscribedUsers
    | NoTokens
    | Notified(successCount: nat, failureCount: nat)
    | ErrorLogged(message: string)

  /** The upgrade multicast for `tokens`. */
  function UpgradeMessage(tokens: seq<string>): (m: MulticastMessage)
    ensures m.notification == Notification(Some(UPGRADE_TITLE), Some(UPGRADE_BODY))
    ensures m.data == UPGRADE_DATA && m.tokens == tokens
  {
    FirebaseService.MulticastFor(UPGRADE_REQUEST, tokens)
  }

  /**
   * `sendNotificationToNonSubscribedUsers`. The calls made are a prefix of: the
   * non-subscribed query, the token query on exactly those users' ids in
   * order, the upgrade multicast of the resolved tokens. A query or transport
   * error ends the tick as a logged error and nothing else.
   */
  function SendNotificationToNonSubscribedUsers(store: Store, transport: Transport): (r: Traced<TickOutcome>)
    ensures 1 <= |r.calls| <= 3 && r.calls[0] == NotSubscribedQuery
    ensures r.value == NoNonSubscribedUsers <==> store.notSubscribed == Available([])
    ensures r.value == NoNonSubscribedUsers ==> r.calls == [NotSubscribedQuery]
    ensures store.notSubscribed.Available? && store.notSubscribed.rows != [] ==> |r.calls| >= 2
    ensures (store.notSubscribed.Available? && store.notSubscribed.rows != [] && store.devices.Available? &&
             TokensFor(store.devices.rows, UserIds(store.notSubscribed.rows)) != []) ==> |r.calls| == 3
    ensures |r.calls| >= 2 ==> store.notSubscribed.Available? && store.notSubscribed.rows != [] &&
                                r.calls[1] == DevicesQuery(UserIds(store.notSubscribed.rows))
    ensures |r.calls| == 3 ==> store.devices.Available? &&
                                var tokens := TokensFor(store.devices.rows, UserIds(store.notSubscribed.rows));
                                tokens != [] && r.calls[2] == MulticastCall(UpgradeMessage(tokens))
    ensures r.value == NoTokens <==>
              store.notSubscribed.Available? && store.notSubscribed.rows != [] && store.devices.Available? &&
              TokensFor(store.devices.rows, UserIds(store.notSubscribed.rows)) == []
    ensures r.value.ErrorLogged? <==>
              store.notSubscribed.Unavailable? ||
              (store.notSubscribed.rows != [] && store.devices.Unavailable?) ||
              (|r.calls| == 3 && transport.sendEachForMulticast(r.calls[2].multicast).Failure?)
    ensures r.value.Notified? ==> |r.calls| == 3
    ensures r.value.Notified? && |r.calls| == 3 ==>
              var b := transport.sendEachForMulticast(r.calls[2].multicast);
              b.Success? && r.value == Notified(b.value.successCount, b.value.failureCount)
  {
    var users := SelectNotSubscribed(store);
    match users.value
    case Failure(e) => Traced(ErrorLogged(e), users.calls)
    case Success(rows) =>
      if |rows| == 0 then Traced(NoNonSubscribedUsers, users.calls)
      else
        var rest := NotifyUsers(store, UserIds(rows), transport);
        assert (users.calls + rest.calls)[1..] == rest.calls;
        Traced(rest.value, users.calls + rest.calls)
  }

  /** The part of a tick after the user ids are known: token query, then dispatch of the upgrade payload. */
  function NotifyUsers(store: Store, userIds: seq<string>, transport: Transport): (r: Traced<TickOutcome>)
    ensures 1 <= |r.calls| <= 2 && r.calls[0] == DevicesQuery(userIds)
    ensures r.value != NoNonSubscribedUsers
    ensures |r.calls| == 2 ==> store.devices.Available? && TokensFor(store.devices.rows, userIds) != [] &&
                                r.calls[1] == MulticastCall(UpgradeMessage(TokensFor(store.devices.rows, userIds)))
    ensures r.value == NoTokens <==> store.devices.Available? && TokensFor(store.devices.rows, userIds) == []
    ensures r.value == NoTokens ==> |r.calls| == 1
    ensures store.devices.Available? && TokensFor(store.devices.rows, userIds) != [] ==> |r.calls| == 2
    ensures r.value.ErrorLogged? <==>
              store.devices.Unavailable? || (|r.calls| == 2 && transport.sendEachForMulticast(r.calls[1].multicast).Failure?)
    ensures r.value.Notified? ==> |r.calls| == 2
    ensures r.value.Notified? && |r.calls| == 2 ==>
              var b := transport.sendEachForMulticast(r.calls[1].multicast);
              b.Success? && r.value == Notified(b.value.successCount, b.value.failureCount)
  {
    var tokens := GetFcmTokensByUserIds(store, userIds);
    match tokens.value
    case Failure(f) => Traced(ErrorLogged(f.message), tokens.calls)
    case Success(ts) =>
      if |ts| == 0 then Traced(NoTokens, tokens.calls)
      else
        var sent := FirebaseService.SendNotificationToAll(UPGRADE_REQUEST, ts, transport);
        match sent.value
        case Failure(f) => Traced(ErrorLogged(f.message), tokens.calls + sent.calls)
        case Success(b) => Traced(Notified(b.successCount, b.failureCount), tokens.calls + sent.calls)
  }

  /** One firing of the scheduled job: when it fired and what it asked of the collaborators. */
  datatype Firing = Firing(at: nat, calls: seq<Call>)

  /**
   * `startCronJobs`: the job fires every `intervalSeconds` starting at
   * `firstAt`, and firing `k` runs a tick against the store as it is then,
   * `storeAt[k]`. The tick's outcome is discarded, so every firing runs a full
   * tick, starting with its non-subscribed query, whatever earlier ticks did.
   */
  method StartCronJobs(firstAt: nat, intervalSeconds: nat, storeAt: seq<Store>, transport: Transport)
    returns (firings: seq<Firing>)
    ensures |firings| == |storeAt|
    ensures forall k | 0 <= k < |firings| :: firings[k].at == firstAt + k * intervalSeconds
    ensures forall k | 0 <= k < |firings| ::
              firings[k].calls == SendNotificationToNonSubscribedUsers(storeAt[k], transport).calls
    ensures forall k | 0 <= k < |firings| :: firings[k].calls != [] && firings[k].calls[0] == NotSubscribedQuery
  {
    firings := [];
    var now := firstAt;
    var k := 0;
    while k < |storeAt|
      invariant 0 <= k <= |storeAt|
      invariant |firings| == k
      invariant now == firstAt + k * intervalSeconds
      invariant forall j | 0 <= j < k :: firings[j].at == firstAt + j * intervalSeconds
      invariant forall j | 0 <= j < k ::
                  firings[j].calls == SendNotificationToNonSubscribedUsers(storeAt[j], transport).calls
      invariant forall j | 0 <= j < k :: firings[j].calls != [] && firings[j].calls[0] == NotSubscribedQuery
    {
      var tick := SendNotificationToNonSubscribedUsers(storeAt[k], transport);
      firings := firings + [Firing(now, tick.calls)];
      now := now + intervalSeconds;
      k := k + 1;
    }
  }
}
