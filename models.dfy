/**
 * The entities of the notification pipeline: the Directory Store rows it
 * reads, the requests it accepts, the messages it hands to the push
 * transport, the transport's answers and the HTTP responses it produces.
 */
module Models {
  import opened Wrappers
  import opened JsStrings

  /** A row of `Users` (only `id` is selected by the pipeline). */
  datatype UserRow = UserRow(id: string, pushNotificationsEnabled: bool)

  /** A row of `User_Devices`; the stored `fcm_token` may be null. */
  datatype DeviceRow = DeviceRow(userId: string, platform: string, fcmToken: Option<string>)

  /** Body of a single-device send; every field may be missing from the JSON. */
  datatype NotificationRequest = NotificationRequest(
    token: Option<string>,
    title: Option<string>,
    body: Option<string>,
    data: Option<map<string, string>>)

  /** Body of a broadcast send. */
  datatype BroadcastNotificationRequest = BroadcastNotificationRequest(
    title: Option<string>,
    body: Option<string>,
    data: Option<map<string, string>>,
    onlyEnabled: Option<bool>)
  {
    /** The `!title || !body` guard passes. */
    predicate HasTitleAndBody() {
      Truthy(title) && Truthy(body)
    }
  }

  /** The `notification` part of a push message. */
  datatype Notification = Notification(title: Option<string>, body: Option<string>)

  /** A message for `messaging.send`, addressed to one token. */
  datatype Message = Message(notification: Notification, data: map<string, string>, token: string)

  /** A message for `messaging.sendEachForMulticast`, addressed to a token list. */
  datatype MulticastMessage = MulticastMessage(notification: Notification, data: map<string, string>, tokens: seq<string>)

  /** The transport's outcome for one token of a multicast. */
  datatype SendResponse = Delivered(messageId: string) | Rejected(reason: string)

  /** The transport's answer to a multicast. */
  datatype BatchResponse = BatchResponse(successCount: nat, failureCount: nat, responses: seq<SendResponse>)

  /** What a service call can throw, by origin; `message` is `error.message`. */
  datatype Fault = ValidationFault(message: string) | StoreFault(message: string) | TransportFault(message: string)

  /** `data || {}`: a present object is always truthy, even when empty. */
  function DataOrEmpty(data: Option<map<string, string>>): (m: map<string, string>)
    ensures data.Some? ==> m == data.value
    ensures data.None? ==> m == map[]
  {
    if data.Some? then data.value else map[]
  }

  /** The JSON responses of the two notification endpoints. */
  datatype Response =
    | Sent(messageId: string)                               // 200 {success: true, messageId}
    | NothingToSend(message: string)                        // 200 {success: true, message, sentCount: 0}
    | Dispatched(sentCount: nat, failedCount: nat, totalTokens: nat, responses: seq<SendResponse>)
                                                            // 200 {success: true, sentCount, failedCount, totalTokens, responses}
    | BadRequest(error: string)                             // 400 {error}
    | InternalError(error: string, details: string)         // 500 {error, details}
  {
    /** The HTTP status code. */
    function Status(): (code: nat)
      ensures code == 400 <==> BadRequest?
      ensures code == 500 <==> InternalError?
      ensures code == 200 <==> Sent? || NothingToSend? || Dispatched?
    {
      match this
      case BadRequest(_) => 400
      case InternalError(_, _) => 500
      case _ => 200
    }
  }
}
