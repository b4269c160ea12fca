/**
 * The two Directory Store reads of the pipeline: the ids of all users, and
 * the usable push tokens of the devices owned by a list of users.
 */
module SupabaseService {
  import opened Wrappers
  import opened JsStrings
  import opened Sequences
  import opened Models
  import opened External

  /** The filter `!!token && token.trim() !== ''`. */
  predicate IsUsableToken(t: Option<string>)
    ensures IsUsableToken(t) <==> t.Some? && !IsBlank(t.value)
  {
    Truthy(t) && Trim(t.value) != ""
  }

  /** `.map(device => device.fcm_token)`. */
  function TokenColumn(rows: seq<DeviceRow>): (column: seq<Option<string>>)
    ensures |column| == |rows|
    ensures forall k | 0 <= k < |rows| :: column[k] == rows[k].fcmToken
  {
    seq(|rows|, k requires 0 <= k < |rows| => rows[k].fcmToken)
  }

  /** Tokens as present values, to compare a filtered list with the column it came from. */
  function Lift(tokens: seq<string>): seq<Option<string>> {
    seq(|tokens|, k requires 0 <= k < |tokens| => Some(tokens[k]))
  }

  /**
   * `.filter(token => !!token && token.trim() !== '')`: keeps exactly the
   * present, non-blank tokens, each as often as it occurs, in column order.
   */
  function FilterUsableTokens(column: seq<Option<string>>): (r: seq<string>)
    ensures |r| <= |column|
    ensures forall k | 0 <= k < |r| :: !IsBlank(r[k])
  {
    if column == [] then []
    else
      var rest := FilterUsableTokens(column[1..]);
      if IsUsableToken(column[0]) then [column[0].value] + rest else rest
  }

  /**
   * The filter keeps every present, non-blank token as often as it occurs in
   * the column, and nothing else: no token is dropped, introduced or duplicated.
   */
  lemma {:induction false} FilterCounts(column: seq<Option<string>>)
    ensures forall t :: multiset(FilterUsableTokens(column))[t] == if IsBlank(t) then 0 else multiset(column)[Some(t)]
  {
    if column != [] {
      FilterCounts(column[1..]);
      assert column == [column[0]] + column[1..];
    }
  }

  /** The filter keeps the tokens it keeps in column order. */
  lemma {:induction false} FilterKeepsOrder(column: seq<Option<string>>)
    ensures IsSubsequence(Lift(FilterUsableTokens(column)), column)
  {
    if column != [] {
      FilterKeepsOrder(column[1..]);
      var rest := FilterUsableTokens(column[1..]);
      if IsUsableToken(column[0]) {
        assert Lift([column[0].value] + rest)[1..] == Lift(rest);
      }
    }
  }

  /** The usable tokens of the devices owned by `userIds`, in table order. */
  function TokensFor(devices: seq<DeviceRow>, userIds: seq<string>): seq<string> {
    FilterUsableTokens(TokenColumn(MatchingRows(devices, userIds)))
  }

  /** `users.map(user => user.id)`. */
  function UserIds(users: seq<UserRow>): (ids: seq<string>)
    ensures |ids| == |users|
    ensures forall k | 0 <= k < |users| :: ids[k] == users[k].id
  {
    seq(|users|, k requires 0 <= k < |users| => users[k].id)
  }

  /** `userService.getAllIds()`: one id per user row, in row order; a query error is rethrown. */
  function GetAllIds(store: Store): (r: Traced<Result<seq<string>, Fault>>)
    ensures r.calls == [UsersQuery]
    ensures r.value.Failure? <==> store.users.Unavailable?
    ensures r.value.Failure? ==> r.value.error == StoreFault(store.users.message)
    ensures r.value.Success? ==> |r.value.value| == |store.users.rows|
    ensures r.value.Success? ==> forall k | 0 <= k < |store.users.rows| :: r.value.value[k] == store.users.rows[k].id
  {
    var q := SelectUsers(store);
    match q.value
    case Failure(e) => Traced(Failure(StoreFault(e)), q.calls)
    case Success(rows) => Traced(Success(UserIds(rows)), q.calls)
  }

  /**
   * `userDeviceService.getFcmTokensByUserIds(userIds)`: one query on exactly
   * `userIds`; a query error is rethrown with no partial result; otherwise the
   * usable tokens of the listed users' devices, empty when no row matches.
   */
  function GetFcmTokensByUserIds(store: Store, userIds: seq<string>): (r: Traced<Result<seq<string>, Fault>>)
    ensures r.calls == [DevicesQuery(userIds)]
    ensures r.value.Failure? <==> store.devices.Unavailable?
    ensures r.value.Failure? ==> r.value.error == StoreFault(store.devices.message)
    ensures r.value.Success? ==> r.value.value == TokensFor(store.devices.rows, userIds)
    ensures r.value.Success? && MatchingRows(store.devices.rows, userIds) == [] ==> r.value.value == []
  {
    var q := SelectDevicesIn(store, userIds);
    match q.value
    case Failure(e) => Traced(Failure(StoreFault(e)), q.calls)
    case Success(data) =>
      if |data| == 0 then Traced(Success([]), q.calls)
      else Traced(Success(FilterUsableTokens(TokenColumn(data))), q.calls)
  }

  /** Every token returned is owned by a listed user and is stored there verbatim. */
  lemma {:induction false} TokensComeFromListedUsers(devices: seq<DeviceRow>, userIds: seq<string>, t: string)
    requires t in TokensFor(devices, userIds)
    ensures !IsBlank(t)
    ensures exists k :: 0 <= k < |devices| && devices[k].userId in userIds && devices[k].fcmToken == Some(t)
  {
    var matching := MatchingRows(devices, userIds);
    var column := TokenColumn(matching);
    var tokens := FilterUsableTokens(column);
    FilterCounts(column);
    assert multiset(tokens)[t] > 0;
    assert Some(t) in multiset(column);
    var j :| 0 <= j < |column| && column[j] == Some(t);
    var d := matching[j];
    assert d in multiset(matching);
    assert d in multiset(devices);
    var k :| 0 <= k < |devices| && devices[k] == d;
  }

  /** Every usable token of a listed user's device is returned unchanged. */
  lemma {:induction false} ListedUsersTokensSurvive(devices: seq<DeviceRow>, userIds: seq<string>, k: nat)
    requires k < |devices| && devices[k].userId in userIds && IsUsableToken(devices[k].fcmToken)
    ensures devices[k].fcmToken.value in TokensFor(devices, userIds)
  {
    var d := devices[k];
    var matching := MatchingRows(devices, userIds);
    assert d in multiset(devices);
    assert d in multiset(matching);
    var j :| 0 <= j < |matching| && matching[j] == d;
    var column := TokenColumn(matching);
    assert column[j] == d.fcmToken;
    assert d.fcmToken in multiset(column);
    FilterCounts(column);
    assert multiset(FilterUsableTokens(column))[d.fcmToken.value] > 0;
  }

  /** At most one token per matching device row, in the order of the rows. */
  lemma {:induction false} TokensFollowRowOrder(devices: seq<DeviceRow>, userIds: seq<string>)
    ensures |TokensFor(devices, userIds)| <= |MatchingRows(devices, userIds)|
    ensures IsSubsequence(Lift(TokensFor(devices, userIds)), TokenColumn(MatchingRows(devices, userIds)))
  {
    var column := TokenColumn(MatchingRows(devices, userIds));
    FilterKeepsOrder(column);
  }

  /** Filtering an already filtered list changes nothing. */
  lemma {:induction false} FilterIdempotent(column: seq<Option<string>>)
    ensures FilterUsableTokens(Lift(FilterUsableTokens(column))) == FilterUsableTokens(column)
  {
    if column != [] {
      FilterIdempotent(column[1..]);
      var rest := FilterUsableTokens(column[1..]);
      if IsUsableToken(column[0]) {
        var l := Lift([column[0].value] + rest);
        assert l[0] == column[0] && l[1..] == Lift(rest);
      }
    }
  }
}
