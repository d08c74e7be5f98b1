/**
  The socket server's side: `dispatch` for notify and flush requests, `submit`, and the
  client's timeouts for a flush.

  Here a notify request runs on its own; what the worker does while its `send` waits for
  room is a parameter. `System` has every interleaving, and `Refinement` shows that a
  request served here is a run there.
*/
module Server {
  import opened Messages
  import opened QueueStore
  import WorkerLoop
  import Escaping

  const PROTOCOL_VERSION: u32 := 1
  const MAX_FLUSH_TIMEOUT_MS: u64 := 300000
  const FLUSH_POLL_MS: nat := 50

  datatype Rejection = UnsupportedVersion | EmptyText | UnknownTarget | NotPersisted | QueueFull | WorkerGone

  datatype Response =
    | Queued(id: Id)
    | Flushed(pending: nat, timedOut: bool)
    | Error(reason: Rejection)

  datatype ServerConfig = ServerConfig(targets: set<string>, defaultTarget: string, maxQueueSize: nat)

  // ----- notify: what it does -----

  function Validate(request: NotifyRequest): Option<Rejection> {
    if request.version != PROTOCOL_VERSION then Some(UnsupportedVersion)
    else if Escaping.Trim(request.text) == "" && Escaping.Trim(request.title.GetOr("")) == "" then Some(EmptyText)
    else None
  }

  function TargetName(config: ServerConfig, request: NotifyRequest): string {
    request.target.GetOr(config.defaultTarget)
  }

  /** Why a request is turned down before anything is written. */
  function Precheck(config: ServerConfig, request: NotifyRequest): Option<Rejection> {
    var invalid := Validate(request);
    if invalid.Some? then invalid
    else if TargetName(config, request) !in config.targets then Some(UnknownTarget)
    else None
  }

  datatype Line = Line(items: seq<QueueEntry>, open: bool)

  /** What the worker does while a `send` waits: takes entries from the front, or goes away. */
  datatype Meanwhile = Takes(n: nat) | Goes

  /** A `send` returns only once there is room or the receiver is gone. */
  predicate Resolves(line: Line, meanwhile: Meanwhile) {
    line.open && |line.items| >= CHANNEL_CAPACITY && meanwhile.Takes? ==>
        |line.items| - CHANNEL_CAPACITY < meanwhile.n <= |line.items|
  }

  function AfterSend(line: Line, e: QueueEntry, meanwhile: Meanwhile): Line
    requires Resolves(line, meanwhile)
  {
    if !line.open then line
    else if |line.items| < CHANNEL_CAPACITY then Line(line.items + [e], true)
    else if meanwhile.Goes? then Line([], false)
    else Line(line.items[meanwhile.n..] + [e], true)
  }

  datatype Served = Served(disk: Disk, line: Line, response: Response)

  /** What the outside contributes to one request: fresh id, clock, faults, and what happens while it waits. */
  datatype Env = Env(id: Id, now: u64, storeFault: StoreFault, meanwhile: Meanwhile, removeFails: bool)

  function Rejected(disk: Disk, line: Line, env: Env, reason: Rejection): Served {
    Served(if env.removeFails then disk else Unlink(disk, env.id), line, Error(reason))
  }

  /** `full` says whether the published count has reached the limit. */
  function AfterNotify(config: ServerConfig, disk: Disk, line: Line, full: bool, request: NotifyRequest,
                       env: Env): Served
    requires Resolves(line, env.meanwhile)
  {
    var refused := Precheck(config, request);
    if refused.Some? then Served(disk, line, Error(refused.value))
    else
      var entry := NewEntry(request, TargetName(config, request), env.id, env.now);
      var stored := StoreOn(disk, entry, env.storeFault);
      if !env.storeFault.StoreOk? then Served(stored, line, Error(NotPersisted))
      else if full then Rejected(stored, line, env, QueueFull)
      else
        var sent := AfterSend(line, entry, env.meanwhile);
        if sent.open then Served(stored, sent, Queued(env.id)) else Rejected(stored, sent, env, WorkerGone)
  }

  // ----- notify: the code -----

  class Channel {
    var line: Line

    constructor ()
      ensures line == Line([], true)
    {
      line := Line([], true);
    }

    /** `mpsc::Sender::send` */
    method Send(e: QueueEntry, meanwhile: Meanwhile) returns (ok: bool)
      requires Resolves(line, meanwhile)
      modifies this
      ensures line == AfterSend(old(line), e, meanwhile)
      ensures ok <==> old(line.open) && (|old(line.items)| < CHANNEL_CAPACITY || meanwhile.Takes?)
      ensures ok ==> line.open && line.items != [] && line.items[|line.items| - 1] == e
      ensures ok ==> line.items[..|line.items| - 1] == (if |old(line.items)| < CHANNEL_CAPACITY then old(line.items)
                                                        else old(line.items)[meanwhile.n..])
      ensures !ok ==> !line.open && line.items == if old(line.open) then [] else old(line.items)
    {
      if !line.open {
        return false;
      }
      if |line.items| >= CHANNEL_CAPACITY {
        match meanwhile {
          case Goes =>
            line := Line([], false);
            return false;
          case Takes(n) =>
            line := Line(line.items[n..], true);
        }
      }
      line := Line(line.items + [e], true);
      return true;
    }
  }

  class WorkerHandle {
    const channel: Channel
    const metrics: WorkerLoop.Metrics
    const maxQueueSize: nat

    constructor (channel: Channel, metrics: WorkerLoop.Metrics, maxQueueSize: nat)
      ensures this.channel == channel && this.metrics == metrics && this.maxQueueSize == maxQueueSize
    {
      this.channel := channel;
      this.metrics := metrics;
      this.maxQueueSize := maxQueueSize;
    }

    ghost predicate Full()
      reads metrics
    {
      maxQueueSize > 0 && metrics.pending >= maxQueueSize
    }

    method Submit(e: QueueEntry, meanwhile: Meanwhile) returns (rejection: Option<Rejection>)
      requires Resolves(channel.line, meanwhile)
      modifies channel
      ensures channel.line == if Full() then old(channel.line) else AfterSend(old(channel.line), e, meanwhile)
      ensures rejection == if Full() then Some(QueueFull) else if channel.line.open then None else Some(WorkerGone)
      ensures rejection == Some(QueueFull) <==> maxQueueSize > 0 && metrics.pending >= maxQueueSize
      ensures rejection == Some(QueueFull) ==> channel.line == old(channel.line)
      ensures rejection == Some(WorkerGone) ==>
                !channel.line.open && forall x :: x in channel.line.items ==> x in old(channel.line.items)
      ensures rejection.None? ==>
                var items, older := channel.line.items, old(channel.line.items);
                && channel.line.open && items != [] && items[|items| - 1] == e
                && items[..|items| - 1] == if |older| < CHANNEL_CAPACITY then older else older[meanwhile.n..]
      ensures rejection.None? <==> !(maxQueueSize > 0 && metrics.pending >= maxQueueSize) && old(channel.line.open)
                                   && (|old(channel.line.items)| < CHANNEL_CAPACITY || meanwhile.Takes?)
    {
      if maxQueueSize > 0 && metrics.pending >= maxQueueSize {
        return Some(QueueFull);
      }
      var sent := channel.Send(e, meanwhile);
      return if sent then None else Some(WorkerGone);
    }
  }

  class ConnectionContext {
    const config: ServerConfig
    const queue: Queue
    const worker: WorkerHandle

    constructor (config: ServerConfig, queue: Queue, worker: WorkerHandle)
      ensures this.config == config && this.queue == queue && this.worker == worker
    {
      this.config := config;
      this.queue := queue;
      this.worker := worker;
    }

    /** The `Notify` arm of `dispatch`. */
    method Notify(request: NotifyRequest, env: Env) returns (response: Response)
      requires Resolves(worker.channel.line, env.meanwhile)
      modifies queue, worker.channel
      ensures Served(queue.disk, worker.channel.line, response)
           == AfterNotify(config, old(queue.disk), old(worker.channel.line), worker.Full(), request, env)
      ensures response.Queued? ==>
                var items := worker.channel.line.items;
                && response.id == env.id && items != []
                && var e := items[|items| - 1];
                && IsFresh(e, env.id, env.now) && Carries(e, request)
                && queue.disk.queue == old(queue.disk.queue)[env.id := Complete(e)]
    {
      var invalid := Validate(request);
      if invalid.Some? {
        return Error(invalid.value);
      }
      var targetName := request.target.GetOr(config.defaultTarget);
      if targetName !in config.targets {
        return Error(UnknownTarget);
      }
      var entry := NewEntry(request, targetName, env.id, env.now);
      var stored := queue.Store(entry, env.storeFault);
      if !stored {
        return Error(NotPersisted);
      }
      var rejection := worker.Submit(entry, env.meanwhile);
      if rejection.Some? {
        var removed := queue.Remove(env.id, env.removeFails);
        return Error(rejection.value);
      }
      return Queued(entry.id);
    }

    /**
      The `Flush` arm of `dispatch`. `published(t)` is the pending count at instant `t` in
      milliseconds; the k-th sleep oversleeps by `late(k)`.
    */
    method Flush(timeoutMs: u64, start: nat, published: nat -> nat, late: nat -> nat, ghost slack: nat)
      returns (response: Response, answered: nat)
      requires forall k :: late(k) <= slack
      ensures response == Flushed(published(answered), published(answered) != 0)
      ensures var deadline := start + if timeoutMs <= 300000 then timeoutMs else 300000;
              && (deadline <= answered || published(answered) == 0)
              && (answered < deadline + 50 + slack || answered == start)
      ensures start <= answered
    {
      var deadline := FlushDeadline(start, timeoutMs);
      var now, polls := start, 0;
      while true
        invariant start <= now
        invariant now < deadline + FLUSH_POLL_MS + slack || now == start
        decreases deadline + FLUSH_POLL_MS - now
      {
        var pending := published(now);
        if pending == 0 {
          return Flushed(0, false), now;
        }
        if now >= deadline {
          return Flushed(pending, true), now;
        }
        now, polls := now + FLUSH_POLL_MS + late(polls), polls + 1;
      }
    }
  }

  // ----- notify: what it means -----

  /** Nothing but white space. */
  predicate IsBlank(text: Option<string>) {
    text.Some? ==> Escaping.AllSpace(text.value)
  }

  /** The targets are the configured ones; a request that names none goes to the default one. */
  predicate KnownTarget(config: ServerConfig, target: Option<string>) {
    (target.Some? && target.value in config.targets) || (target.None? && config.defaultTarget in config.targets)
  }

  /** Which requests are turned down before anything is written, and why. */
  lemma PrecheckMeans(config: ServerConfig, request: NotifyRequest)
    ensures var blank := IsBlank(Some(request.text)) && IsBlank(request.title);
            Precheck(config, request) ==
              if request.version != 1 then Some(UnsupportedVersion)
              else if blank then Some(EmptyText)
              else if !KnownTarget(config, request.target) then Some(UnknownTarget)
              else None
  {
    Escaping.BlankMeans(request.text);
    Escaping.BlankMeans(request.title.GetOr(""));
  }

  /** A `send` on `line` gets its entry in. */
  predicate GetsIn(line: Line, meanwhile: Meanwhile) {
    line.open && (|line.items| < CHANNEL_CAPACITY || meanwhile.Takes?)
  }

  /** Which answer a request gets. */
  lemma AnswerMeans(config: ServerConfig, disk: Disk, line: Line, full: bool, request: NotifyRequest, env: Env)
    requires Resolves(line, env.meanwhile)
    ensures var refused := Precheck(config, request);
            AfterNotify(config, disk, line, full, request, env).response ==
              if refused.Some? then Error(refused.value)
              else if !env.storeFault.StoreOk? then Error(NotPersisted)
              else if full then Error(QueueFull)
              else if GetsIn(line, env.meanwhile) then Queued(env.id)
              else Error(WorkerGone)
  {
  }

  /**
    When the answer is `Queued(id)`, the file of `id` is complete; the entry it holds is a
    new one, is what was asked for and stands last in the line, with the older entries
    before it, but for those the worker took to make room.
  */
  lemma QueuedMeans(config: ServerConfig, disk: Disk, line: Line, full: bool, request: NotifyRequest, env: Env)
    requires Resolves(line, env.meanwhile)
    requires AfterNotify(config, disk, line, full, request, env).response.Queued?
    ensures var r := AfterNotify(config, disk, line, full, request, env);
            var items := r.line.items;
            && r.response == Queued(env.id) && r.line.open && items != []
            && var e := items[|items| - 1];
            && r.disk.queue == disk.queue[env.id := Complete(e)] && r.disk.failed == disk.failed
            && IsFresh(e, env.id, env.now) && Carries(e, request)
            && e.message.target == if request.target.Some? then request.target.value else config.defaultTarget
    ensures GetsIn(line, env.meanwhile)
    ensures var items := AfterNotify(config, disk, line, full, request, env).line.items;
            items[..|items| - 1] == if |line.items| < CHANNEL_CAPACITY then line.items
                                    else line.items[env.meanwhile.n..]
  {
  }

  /** An `Error` leaves the queue directory as it was, unless removing the rejected file failed. */
  lemma ErrorLeavesNothing(config: ServerConfig, disk: Disk, line: Line, full: bool, request: NotifyRequest, env: Env)
    requires Resolves(line, env.meanwhile) && env.id !in disk.queue
    ensures var r := AfterNotify(config, disk, line, full, request, env);
            && (r.response.Error? ==>
                  (r.disk.queue == disk.queue <==>
                     Precheck(config, request).Some? || !env.storeFault.StoreOk? || !env.removeFails)
                  && (forall e :: e in r.line.items ==> e in line.items))
            && r.disk.failed == disk.failed
  {
  }

  // ----- flush -----

  function Min(a: nat, b: nat): nat {
    if a < b then a else b
  }

  function FlushDeadline(start: nat, timeoutMs: u64): nat {
    start + Min(timeoutMs, MAX_FLUSH_TIMEOUT_MS)
  }

  /** `saturating_mul(1000)` */
  function SaturatingThousandfold(a: u64): u64 {
    if a * 1000 < U64_LIMIT then a * 1000 else U64_LIMIT - 1
  }

  function SaturatingAdd(a: u64, b: u64): u64 {
    if a + b < U64_LIMIT then a + b else U64_LIMIT - 1
  }

  /** The timeout the client asks the daemon for, from `--wait-timeout` seconds. */
  function RequestedTimeoutMs(waitSeconds: u64): u64 {
    SaturatingThousandfold(waitSeconds)
  }

  /** How long the client waits on the socket. */
  function SocketTimeoutSeconds(waitSeconds: u64): u64 {
    var t := SaturatingAdd(waitSeconds, 5);
    if t < 2 then 2 else t
  }

  /**
    Whatever the client asks for, the daemon waits that long, or five minutes if that is
    more than five minutes, and its answer is due before the client's read
    times out, with 4.95 seconds to spare for the last poll to be late.
  */
  lemma ClientOutlivesTheFlush(waitSeconds: u64, start: nat, slack: nat)
    requires slack <= 4950
    ensures FlushDeadline(start, RequestedTimeoutMs(waitSeconds))
         == start + if waitSeconds <= 300 then waitSeconds * 1000 else 300000
    ensures FlushDeadline(start, RequestedTimeoutMs(waitSeconds)) + FLUSH_POLL_MS + slack
         <= start + SocketTimeoutSeconds(waitSeconds) * 1000
  {
  }
}
