/**
 * Worked examples of the pipeline on small concrete stores and transports.
 */
module Scenarios {
  import opened Wrappers
  import opened Models
  import opened External
  import opened SupabaseService
  import NotificationController
  import CronService

  /** A transport whose every call answers: one message id, and a one-token batch that was delivered. */
  function AnsweringTransport(): Transport {
    Transport(
      m => Success("projects/p/messages/1"),
      m => Success(BatchResponse(1, 0, [Delivered("m1")])))
  }

  /** A store with one non-subscribed user, who owns a device without a token and one with token "b". */
  function OneProspectStore(): Store {
    Store(
      Available([UserRow("u1", true), UserRow("u2", false)]),
      Available([DeviceRow("u2", "iOS", None), DeviceRow("u2", "Android", Some("b"))]),
      Available([UserRow("u2", false)]))
  }

  /** `{token: "abc"}` is sent to exactly "abc" with the fallback title, body and data. */
  lemma SingleSendWithDefaults()
    ensures NotificationController.SendNotification(
              NotificationRequest(Some("abc"), None, None, None), AnsweringTransport()) ==
            Traced(Sent("projects/p/messages/1"),
                   [SendCall(Message(Notification(Some("Notification"), Some("You have a new notification")), map[], "abc"))])
  {
  }

  /** The non-subscribed user's one usable token is "b": the device without a token is skipped. */
  lemma ProspectTokens()
    ensures TokensFor(OneProspectStore().devices.rows, ["u2"]) == ["b"]
  {
    var devices := OneProspectStore().devices.rows;
    assert MatchingRows(devices[1..], ["u2"]) == devices[1..];
    assert MatchingRows(devices, ["u2"]) == devices;
    assert TokenColumn(devices) == [None, Some("b")];
    assert IsUsableToken(Some("b")) by { assert "b"[0] == 'b'; }
    assert [None, Some("b")][1..] == [Some("b")];
  }

  /**
   * A tick on that store queries the user's devices, multicasts the upgrade
   * payload to "b" and logs the transport's tally of one delivered message.
   */
  lemma ProspectTick()
    ensures CronService.SendNotificationToNonSubscribedUsers(OneProspectStore(), AnsweringTransport()) ==
            Traced(CronService.Notified(1, 0),
                   [NotSubscribedQuery, DevicesQuery(["u2"]), MulticastCall(CronService.UpgradeMessage(["b"]))])
  {
    assert UserIds(OneProspectStore().notSubscribed.rows) == ["u2"];
    ProspectTokens();
  }

  /**
   * Two firings, 5 seconds apart: the first finds the store down and stops
   * after its query; the second still runs in full, sending the upgrade
   * payload to the one usable token of the non-subscribed user.
   */
  method FailingTickDoesNotStopTheNext() returns (firings: seq<CronService.Firing>)
    ensures |firings| == 2
    ensures firings[0] == CronService.Firing(0, [NotSubscribedQuery])
    ensures firings[1] == CronService.Firing(5, [NotSubscribedQuery, DevicesQuery(["u2"]),
                                                 MulticastCall(CronService.UpgradeMessage(["b"]))])
  {
    var failing := Store(Unavailable("connection reset"), Unavailable("connection reset"), Unavailable("connection reset"));
    ProspectTick();
    firings := CronService.StartCronJobs(0, 5, [failing, OneProspectStore()], AnsweringTransport());
  }
}
