/**
 The message envelope and the values a handler returns, with the constants and
 name rules every other module shares.
 */
module Messages {

  datatype Option<+T> = None | Some(value: T)

  /** Relay cap for a targeted message. */
  const MAX_TARGETED_HOPS: nat := 64

  datatype DeliveryMode = Standard | Repeated(times: nat) | Broadcast

  /** A point in time, in nanoseconds from the Unix epoch; negative before it. */
  type Time = int

  datatype EMessage = EMessage(
    id: string,
    topic: string,
    payload: seq<bv8>,
    attempts: nat,
    deliveryMode: DeliveryMode,
    consumedCount: nat,
    deliverAt: Option<Time>,
    toWorker: Option<string>
  )

  datatype DeadReason = MaxRetriesExceeded | Explicit | Timeout | NoHandler | Other(text: string)

  datatype Ack =
    | Ack
    | NoAck(retryAfter: Option<nat>, maxRetries: nat)
    | Dead(deadReason: DeadReason)

  /** Where a record of the write-ahead log stands. */
  datatype WalStatus = Pending | Processing | Complete | Failed

  function Max(a: int, b: int): int {
    if a < b then b else a
  }

  /** The node-qualified form of a worker name. */
  function Qualified(node: string, name: string): string {
    node + "@" + name
  }

  function DeadLetterTopic(topic: string): string {
    "dead_letter." + topic
  }

  predicate IsSystemTopic(topic: string) {
    "_system." <= topic
  }

  /** A local worker name answers to a target either exactly or in this node's qualified form. */
  predicate Answers(node: Option<string>, name: string, target: string) {
    name == target || (node.Some? && name == Qualified(node.value, target))
  }

  /** No worker name is the qualified form of another one: names end in a fresh UUID. */
  ghost predicate Unambiguous(names: set<string>, nodes: set<string>) {
    forall a, b, n {:trigger Qualified(n, b), a in names} ::
      a in names && b in names && n in nodes ==> a != Qualified(n, b)
  }
}
