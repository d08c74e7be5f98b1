/** The values that travel through the daemon: requests, queue entries, targets, send errors. */
module Messages {

  datatype Option<+T> = None | Some(value: T) {
    function GetOr(default: T): T {
      if Some? then value else default
    }
  }

  const U64_LIMIT: int := 0x1_0000_0000_0000_0000
  const U32_LIMIT: int := 0x1_0000_0000

  /** Room in the channel between the connections and the worker. */
  const CHANNEL_CAPACITY: nat := 1024

  type u64 = n: int | 0 <= n < U64_LIMIT
  type u32 = n: int | 0 <= n < U32_LIMIT

  /** The text form of a UUID: fresh for every accepted message. */
  type Id = string

  datatype Format = Plain | Markdown | MarkdownV2 | Html

  /** Declared in ascending order, as `protocol.rs` derives its ordering. */
  datatype Priority = Low | Normal | High {
    function Rank(): nat {
      match this
      case Low => 0
      case Normal => 1
      case High => 2
    }
  }

  datatype NotifyRequest = NotifyRequest(
    version: u32,
    text: string,
    title: Option<string>,
    target: Option<string>,
    format: Option<Format>,
    priority: Priority,
    silent: Option<bool>,
    source: Option<string>)

  datatype QueuedMessage = QueuedMessage(
    target: string,
    text: string,
    title: Option<string>,
    format: Option<Format>,
    silent: Option<bool>,
    source: Option<string>)

  /** The outcome of one `sendMessage` call that Telegram did not accept. */
  datatype SendError =
    | Transport(detail: string)
    | RateLimited(retryAfter: u64, description: string)
    | Permanent(code: int, description: string)
    | Temporary(code: int, description: string)
  {
    predicate IsRetryable() {
      !Permanent?
    }

    function RetryAfter(): Option<u64> {
      if RateLimited? then Some(retryAfter) else None
    }
  }

  /** Why an entry last failed; the daemon stores it rendered as text. */
  datatype Reason = FromTelegram(error: SendError) | Unresolvable(detail: string)

  datatype QueueEntry = QueueEntry(
    id: Id,
    createdAt: u64,
    nextAttemptAt: u64,
    attempts: u32,
    lastError: Option<Reason>,
    priority: Priority,
    message: QueuedMessage)
  {
    predicate IsDue(now: u64) {
      nextAttemptAt <= now
    }

    /** Same message, whatever its retry state. */
    predicate SameMessage(other: QueueEntry) {
      id == other.id && createdAt == other.createdAt && priority == other.priority && message == other.message
    }
  }

  /** A new entry, due immediately. */
  function NewEntry(request: NotifyRequest, target: string, id: Id, now: u64): QueueEntry {
    QueueEntry(id, now, now, 0, None, request.priority,
               QueuedMessage(target, request.text, request.title, request.format, request.silent, request.source))
  }

  /** The entry carries what was asked for, each field in its place; the target is the one asked for, if any. */
  predicate Carries(e: QueueEntry, request: NotifyRequest) {
    && e.message.text == request.text && e.message.title == request.title
    && e.message.format == request.format && e.message.silent == request.silent
    && e.message.source == request.source && e.priority == request.priority
    && (request.target.Some? ==> e.message.target == request.target.value)
  }

  /** A new entry: never attempted, due since `now`. */
  predicate IsFresh(e: QueueEntry, id: Id, now: u64) {
    && e.id == id && e.createdAt == now && e.nextAttemptAt == now && e.attempts == 0 && e.lastError == None
  }

  /** The part of a resolved target that shapes the message body. */
  datatype Target = Target(name: string, format: Format, silent: bool, prefix: Option<string>)

  datatype RetryConfig = RetryConfig(
    maxAttempts: u32,
    initialBackoffSeconds: u64,
    maxBackoffSeconds: u64,
    backoffMultiplier: real)

  datatype Config = Config(
    retry: RetryConfig,
    maxQueueSize: nat,
    minSendIntervalMs: nat)

  /** `u64` addition as the release build performs it. */
  function WrappingAdd(a: u64, b: u64): u64 {
    (a + b) % U64_LIMIT
  }

  /** `attempts += 1` as the release build performs it. */
  function NextAttempts(attempts: u32): u32 {
    (attempts + 1) % U32_LIMIT
  }
}
