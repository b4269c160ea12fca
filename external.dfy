/**
 * The two external collaborators of the pipeline, as inputs: the Directory
 * Store (a snapshot of its tables) and the push transport (uninterpreted
 * functions). Every query or transport call a pipeline run issues is recorded
 * in a trace, so that "issued", "not issued" and "in this order" can be stated.
 */
module External {
  import opened Wrappers
  import opened Models
  import opened Sequences

  /** A table as one query sees it: its rows, or the error the query returns. */
  datatype Table<T> = Available(rows: seq<T>) | Unavailable(message: string)

  /**
   * The Directory Store. `notSubscribed` is the answer of the store's
   * non-subscribed-users query, whose definition is not part of this model.
   */
  datatype Store = Store(users: Table<UserRow>, devices: Table<DeviceRow>, notSubscribed: Table<UserRow>)

  /** One interaction with a collaborator. */
  datatype Call =
    | UsersQuery                              // from('Users').select('id')
    | NotSubscribedQuery                      // userService.getNotSubscribed()
    | DevicesQuery(userIds: seq<string>)      // from('User_Devices').select('fcm_token').in('user_id', userIds)
    | SendCall(message: Message)              // messaging.send(message)
    | MulticastCall(multicast: MulticastMessage) // messaging.sendEachForMulticast(multicast)

  /** A value together with the calls issued, in order, to compute it. */
  datatype Traced<T> = Traced(value: T, calls: seq<Call>)

  /** The push transport: each call either answers or throws (with its message). */
  datatype Transport = Transport(
    send: Message -> Result<string, string>,
    sendEachForMulticast: MulticastMessage -> Result<BatchResponse, string>)

  /** A batch answer accounts for exactly `n` submitted tokens. */
  predicate Accounts(b: BatchResponse, n: nat) {
    b.successCount + b.failureCount == n && |b.responses| == n
  }

  /**
   * What the transport is assumed to guarantee and the code never checks:
   * a multicast that answers accounts for every token it was given.
   */
  ghost predicate WellBehaved(t: Transport) {
    forall m :: t.sendEachForMulticast(m).Success? ==> Accounts(t.sendEachForMulticast(m).value, |m.tokens|)
  }

  /** `.in('user_id', userIds)`: the rows owned by a listed user, in table order. */
  function MatchingRows(rows: seq<DeviceRow>, userIds: seq<string>): (r: seq<DeviceRow>)
    ensures forall k | 0 <= k < |r| :: r[k].userId in userIds
    ensures forall d :: multiset(r)[d] == if d.userId in userIds then multiset(rows)[d] else 0
    ensures IsSubsequence(r, rows)
  {
    if rows == [] then []
    else
      assert rows == [rows[0]] + rows[1..];
      var rest := MatchingRows(rows[1..], userIds);
      if rows[0].userId in userIds then
        assert ([rows[0]] + rest)[1..] == rest;
        [rows[0]] + rest
      else rest
  }

  /** `from('Users').select('id')`. */
  function SelectUsers(store: Store): (r: Traced<Result<seq<UserRow>, string>>)
    ensures r.calls == [UsersQuery]
    ensures r.value.Success? <==> store.users.Available?
    ensures r.value.Success? ==> r.value.value == store.users.rows
    ensures r.value.Failure? ==> r.value.error == store.users.message
  {
    match store.users
    case Available(rows) => Traced(Success(rows), [UsersQuery])
    case Unavailable(e) => Traced(Failure(e), [UsersQuery])
  }

  /** `userService.getNotSubscribed()`. */
  function SelectNotSubscribed(store: Store): (r: Traced<Result<seq<UserRow>, string>>)
    ensures r.calls == [NotSubscribedQuery]
    ensures r.value.Success? <==> store.notSubscribed.Available?
    ensures r.value.Success? ==> r.value.value == store.notSubscribed.rows
    ensures r.value.Failure? ==> r.value.error == store.notSubscribed.message
  {
    match store.notSubscribed
    case Available(rows) => Traced(Success(rows), [NotSubscribedQuery])
    case Unavailable(e) => Traced(Failure(e), [NotSubscribedQuery])
  }

  /** `from('User_Devices').select('fcm_token').in('user_id', userIds)`. */
  function SelectDevicesIn(store: Store, userIds: seq<string>): (r: Traced<Result<seq<DeviceRow>, string>>)
    ensures r.calls == [DevicesQuery(userIds)]
    ensures r.value.Success? <==> store.devices.Available?
    ensures r.value.Success? ==> r.value.value == MatchingRows(store.devices.rows, userIds)
    ensures r.value.Failure? ==> r.value.error == store.devices.message
  {
    match store.devices
    case Available(rows) => Traced(Success(MatchingRows(rows, userIds)), [DevicesQuery(userIds)])
    case Unavailable(e) => Traced(Failure(e), [DevicesQuery(userIds)])
  }
}
