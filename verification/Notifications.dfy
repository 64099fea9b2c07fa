/** The canonical message (proto/notification/v1) and the codec that carries it. */
module Notifications {
  import opened Text

  /** Instants in nanoseconds; Go's zero time.Time is the instant 0. */
  type Time = int
  const ZERO_TIME: Time := 0

  datatype Content = Content(title: string, body: string, priority: int, data: map<string, string>)

  datatype PushoverTarget = PushoverTarget(
    userOrGroupKey: string, deviceName: string, sound: string, url: string, urlTitle: string)

  /** The `target` oneof; a Pushover arm may be set and still carry no message. */
  datatype Target = Unset | Pushover(arm: Option<PushoverTarget>) | OtherArm

  datatype Notification = Notification(
    id: string,
    createdAt: Option<Time>,
    expiresAt: Option<Time>,
    originatingService: string,
    idempotencyKey: string,
    content: Option<Content>,
    target: Target)

  type Bytes = seq<bv8>

  /** Protobuf encoding as two partial functions; marshalling fails on invalid strings. */
  datatype Codec = Codec(marshal: Notification -> Option<Bytes>, unmarshal: Bytes -> Option<Notification>)
  {
    /** What was marshalled unmarshals to itself. */
    ghost predicate Lossless() {
      forall n :: marshal(n).Some? ==> unmarshal(marshal(n).value) == Some(n)
    }
  }
}
