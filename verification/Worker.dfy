/**
  The delivery worker of one process lifetime.

  `Turn` is everything the outside world contributes to one pass of the worker's loop:
  clock readings, arrivals, what the connections do to the directories while the worker
  waits, target resolution, Telegram's answers and disk faults. `AfterTurn` says what a
  pass does to all the state the worker can touch; the class `Worker` keeps the control
  flow of `worker.rs` and is proved to do exactly that.
*/
module WorkerLoop {
  import opened Messages
  import opened QueueStore
  import opened Scheduling
  import opened RetryPolicy
  import opened TelegramClient
  import Escaping

  datatype Wake = Shutdown | Closed | Received(entry: QueueEntry) | Slept

  datatype Turn = Turn(
    headNow: u64,                  // clock at the loop head
    waiting: seq<QueueEntry>,      // what `try_recv` yields before it runs dry
    others: Disk -> Disk,          // what connections do to the directories before the worker touches them
    idleMs: nat,                   // monotonic time from the last attempt, or the start, to the rate limit's check
    lagMs: nat,                    // time from there to the attempt
    pickNow: u64,                  // clock when the entry is picked
    resolution: Option<Target>,    // `resolve_target` of the picked entry
    resolveError: string,
    api: nat -> Reply,             // Telegram's answers to this attempt
    callMs: nat -> nat,            // time from the start of the attempt to a later call
    failNow: u64,                  // clock when a failed attempt is rescheduled
    storeFault: StoreFault,
    failFault: FailFault,
    removeFails: bool,
    wake: Wake)                    // how an idle pass ends

  /** Everything the worker can read or change. */
  datatype View = View(
    entries: map<Id, QueueEntry>,
    disk: Disk,
    pending: nat,
    delivered: nat,
    calls: seq<Call>,
    lastSend: Option<nat>)

  // ----- what a pass does -----

  function AfterAccept(v: View, e: QueueEntry): View {
    var entries := v.entries[e.id := e];
    v.(entries := entries, pending := |entries|)
  }

  function AfterAcceptAll(v: View, arrivals: seq<QueueEntry>): View
    decreases |arrivals|
  {
    if arrivals == [] then v else AfterAcceptAll(AfterAccept(v, arrivals[0]), arrivals[1..])
  }

  /** When the next attempt may start: `interval` after the last one, if that is still ahead. */
  function EarliestStart(interval: nat, lastSend: Option<nat>, nowMs: nat): nat {
    if interval == 0 || lastSend.None? || lastSend.value + interval <= nowMs then nowMs
    else lastSend.value + interval
  }

  function WithReason(e: QueueEntry, reason: Reason): QueueEntry {
    e.(lastError := Some(reason))
  }

  function SetAside(v: View, dead: QueueEntry, fault: FailFault): View {
    var entries := v.entries - {dead.id};
    v.(disk := FailOn(v.disk, dead, fault), entries := entries, pending := |entries|)
  }

  function AfterFailure(config: Config, v: View, e: QueueEntry, error: SendError, t: Turn): View {
    match Decide(config.retry, e, error, t.failNow)
    case GiveUp(dead) => SetAside(v, dead, t.failFault)
    case Retry(next, _) =>
      v.(disk := StoreOn(v.disk, next, t.storeFault), entries := v.entries[next.id := next])
  }

  function AfterDelivery(v: View, id: Id, removeFails: bool): View {
    var entries := v.entries - {id};
    v.(entries := entries,
       disk := if removeFails then v.disk else Unlink(v.disk, id),
       delivered := v.delivered + 1,
       pending := |entries|)
  }

  function FormatFor(e: QueueEntry, target: Target): Format {
    e.message.format.GetOr(target.format)
  }

  function SilentFor(e: QueueEntry, target: Target): bool {
    e.message.silent.GetOr(target.silent)
  }

  /** When call `k` of an attempt is made; the first one starts it. */
  function CallAt(startMs: nat, t: Turn, k: nat): nat {
    if k == 0 then startMs else startMs + t.callMs(k)
  }

  function CallTimes(startMs: nat, t: Turn): nat -> nat {
    k => CallAt(startMs, t, k)
  }

  function CallsOf(e: QueueEntry, target: Target, startMs: nat, t: Turn): seq<Call> {
    CallsMade(target, Escaping.BodyOf(e.message, target), FormatFor(e, target), SilentFor(e, target), t.api,
              CallTimes(startMs, t))
  }

  /** What an attempt's calls carry: the message's own format and silence where it has them, else the target's. */
  lemma AttemptCarries(e: QueueEntry, target: Target, startMs: nat, t: Turn)
    ensures var calls := CallsOf(e, target, startMs, t);
            var format := if e.message.format.Some? then e.message.format.value else target.format;
            var silent := if e.message.silent.Some? then e.message.silent.value else target.silent;
            && calls != [] && calls[0].at == startMs
            && (forall i :: 0 <= i < |calls| ==> Addressed(calls[i], target, format, silent))
            && Texts(calls) <= Chunks(Escaping.BodyOf(e.message, target))
  {
    CallsArePrefix(target, Escaping.BodyOf(e.message, target), FormatFor(e, target), SilentFor(e, target), t.api,
                   CallTimes(startMs, t));
  }

  function Called(v: View, e: QueueEntry, target: Target, startMs: nat, t: Turn): View {
    v.(lastSend := Some(startMs), calls := v.calls + CallsOf(e, target, startMs, t))
  }

  function AfterAttempt(config: Config, v: View, e: QueueEntry, startMs: nat, t: Turn): View {
    if t.resolution.None? then SetAside(v, WithReason(e, Unresolvable(t.resolveError)), t.failFault)
    else
      var target := t.resolution.value;
      var sent := Called(v, e, target, startMs, t);
      var error := AttemptError(Escaping.BodyOf(e.message, target), t.api);
      if error.None? then AfterDelivery(sent, e.id, t.removeFails)
      else AfterFailure(config, sent, e, error.value, t)
  }

  /** The monotonic clock when the rate limit is checked. */
  function NowMs(lastSend: Option<nat>, t: Turn): nat {
    lastSend.GetOr(0) + t.idleMs
  }

  function StartMs(config: Config, v: View, t: Turn): nat {
    EarliestStart(config.minSendIntervalMs, v.lastSend, NowMs(v.lastSend, t)) + t.lagMs
  }

  /** `attempt_next` at instant `startMs`. */
  ghost function AfterAttemptNext(config: Config, v: View, startMs: nat, t: Turn): View {
    var picked := Next(v.entries, t.pickNow);
    if picked.None? then v else AfterAttempt(config, v, picked.value, startMs, t)
  }

  /** A pass that finds something due: drain the channel, wait for the rate limit, attempt once. */
  ghost function AfterBusyTurn(config: Config, v: View, t: Turn): View {
    var v1 := AfterAcceptAll(v, t.waiting);
    AfterAttemptNext(config, v1, StartMs(config, v1, t), t)
  }

  /** The directories as the connections leave them. */
  function Seen(v: View, t: Turn): View {
    v.(disk := t.others(v.disk))
  }

  ghost function AfterTurn(config: Config, v: View, t: Turn): View {
    if HasDue(v.entries, t.headNow) then AfterBusyTurn(config, Seen(v, t), t)
    else if t.wake.Received? then AfterAccept(Seen(v, t), t.wake.entry)
    else Seen(v, t)
  }

  /** The pass ends the worker. */
  ghost predicate Stops(v: View, t: Turn) {
    !HasDue(v.entries, t.headNow) && (t.wake.Shutdown? || t.wake.Closed?)
  }

  ghost function AfterTurns(config: Config, v: View, turns: seq<Turn>): View
    decreases |turns|
  {
    if turns == [] then v
    else
      var v' := AfterTurn(config, v, turns[0]);
      if Stops(v, turns[0]) then v' else AfterTurns(config, v', turns[1..])
  }

  // ----- the worker -----

  class Metrics {
    var pending: nat
    var delivered: nat

    constructor (pending: nat)
      ensures this.pending == pending && delivered == 0
    {
      this.pending := pending;
      delivered := 0;
    }
  }

  class Worker {
    const config: Config
    const queue: Queue
    const client: Client
    const metrics: Metrics
    var entries: map<Id, QueueEntry>
    var lastSend: Option<nat>

    constructor (config: Config, queue: Queue, client: Client, metrics: Metrics, entries: map<Id, QueueEntry>)
      ensures this.config == config && this.queue == queue && this.client == client && this.metrics == metrics
      ensures this.entries == entries && lastSend == None
    {
      this.config := config;
      this.queue := queue;
      this.client := client;
      this.metrics := metrics;
      this.entries := entries;
      lastSend := None;
    }

    ghost function Now(): View
      reads this, queue, client, metrics
    {
      View(entries, queue.disk, metrics.pending, metrics.delivered, client.calls, lastSend)
    }

    method Run(turns: seq<Turn>)
      requires Keyed(entries)
      modifies this, queue, client, metrics
      ensures Now() == AfterTurns(config, old(Now()), turns)
      ensures Keyed(entries)
    {
      for i := 0 to |turns|
        invariant Keyed(entries)
        invariant AfterTurns(config, Now(), turns[i..]) == AfterTurns(config, old(Now()), turns)
      {
        assert turns[i..][0] == turns[i] && turns[i..][1..] == turns[i + 1..];
        var stop := Pass(turns[i]);
        if stop {
          return;
        }
      }
      assert turns[|turns|..] == [];
    }

    /** The body of the loop; `stop` says it returned from `run`. */
    method Pass(t: Turn) returns (stop: bool)
      requires Keyed(entries)
      modifies this, queue, client, metrics
      ensures stop <==> Stops(old(Now()), t)
      ensures stop <==> (forall id :: id in old(entries) ==> t.headNow < old(entries)[id].nextAttemptAt)
                        && (t.wake == Shutdown || t.wake == Closed)
      ensures Now() == AfterTurn(config, old(Now()), t)
      ensures Keyed(entries)
    {
      stop := false;
      queue.Meanwhile(t.others);
      var vals := Values(entries);
      NextDueIsLeast(vals, entries, t.headNow);
      var hasDue := NextDue(vals, t.headNow).Some?;
      if hasDue {
        BusyPass(t);
      } else {
        match t.wake {
          case Shutdown => stop := true;
          case Closed => stop := true;
          case Received(entry) => Accept(entry);
          case Slept =>
        }
      }
    }

    method BusyPass(t: Turn)
      requires Keyed(entries)
      modifies this, queue, client, metrics
      ensures Now() == AfterBusyTurn(config, old(Now()), t)
      ensures Keyed(entries)
    {
      DrainReceiver(t.waiting);
      PacedAttempt(t);
    }

    /** `respect_rate_limit` followed by `attempt_next`. */
    method PacedAttempt(t: Turn)
      requires Keyed(entries)
      modifies this, queue, client, metrics
      ensures Now() == AfterAttemptNext(config, old(Now()), StartMs(config, old(Now()), t), t)
      ensures Keyed(entries)
    {
      ghost var before := Now();
      var wakeMs := RespectRateLimit(NowMs(lastSend, t));
      var startMs := wakeMs + t.lagMs;
      assert Now() == before && startMs == StartMs(config, before, t);
      AttemptNext(startMs, t);
    }

    /** The `while let Ok(entry) = receiver.try_recv()` loop. */
    method DrainReceiver(waiting: seq<QueueEntry>)
      requires Keyed(entries)
      modifies this, metrics
      ensures Now() == AfterAcceptAll(old(Now()), waiting)
      ensures Keyed(entries)
    {
      for i := 0 to |waiting|
        invariant Keyed(entries)
        invariant AfterAcceptAll(Now(), waiting[i..]) == AfterAcceptAll(old(Now()), waiting)
      {
        assert waiting[i..][0] == waiting[i] && waiting[i..][1..] == waiting[i + 1..];
        Accept(waiting[i]);
      }
      assert waiting[|waiting|..] == [];
    }

    method Accept(entry: QueueEntry)
      requires Keyed(entries)
      modifies this, metrics
      ensures Now() == AfterAccept(old(Now()), entry)
      ensures Keyed(entries)
    {
      entries := entries[entry.id := entry];
      metrics.pending := |entries|;
    }

    method RespectRateLimit(nowMs: nat) returns (wakeMs: nat)
      requires lastSend.Some? ==> nowMs >= lastSend.value
      ensures wakeMs >= nowMs
      ensures config.minSendIntervalMs > 0 && lastSend.Some? ==> wakeMs - lastSend.value >= config.minSendIntervalMs
      ensures wakeMs > nowMs ==> lastSend.Some? && wakeMs - lastSend.value == config.minSendIntervalMs
      ensures wakeMs == EarliestStart(config.minSendIntervalMs, lastSend, nowMs)
    {
      var interval := config.minSendIntervalMs;
      wakeMs := nowMs;
      if interval == 0 {
        return;
      }
      if lastSend.Some? {
        var elapsed := nowMs - lastSend.value;
        if elapsed < interval {
          wakeMs := nowMs + (interval - elapsed);
        }
      }
    }

    method AttemptNext(startMs: nat, t: Turn)
      requires Keyed(entries)
      modifies this, queue, client, metrics
      ensures Now() == AfterAttemptNext(config, old(Now()), startMs, t)
      ensures if exists id :: id in old(entries) && old(entries)[id].nextAttemptAt <= t.pickNow
              then exists e :: FirstOfDue(old(entries), t.pickNow, e)
                               && Now() == AfterAttempt(config, old(Now()), e, startMs, t)
              else Now() == old(Now())
      ensures Keyed(entries)
    {
      var vals := Values(entries);
      NextDueComputesNext(vals, entries, t.pickNow);
      NextDueIsFirst(vals, entries, t.pickNow);
      var picked := NextDue(vals, t.pickNow);
      if picked.None? {
        return;
      }
      var entry := picked.value;
      if t.resolution.None? {
        FinishFailed(entry, Unresolvable(t.resolveError), t.failFault);
        return;
      }
      Send(entry, t.resolution.value, startMs, t);
    }

    /** The rest of `attempt_next`, once the target is resolved. */
    method Send(entry: QueueEntry, target: Target, startMs: nat, t: Turn)
      requires Keyed(entries) && t.resolution == Some(target)
      modifies this, queue, client, metrics
      ensures Now() == AfterAttempt(config, old(Now()), entry, startMs, t)
      ensures Keyed(entries)
    {
      var body := Escaping.BodyOf(entry.message, target);
      lastSend := Some(startMs);
      var format, silent := FormatFor(entry, target), SilentFor(entry, target);
      var error := client.SendMessage(target, body, format, silent, t.api, CallTimes(startMs, t));
      assert Now() == Called(old(Now()), entry, target, startMs, t);
      if error.None? {
        RecordDelivery(entry.id, t.removeFails);
      } else {
        HandleFailure(entry, error.value, t);
      }
    }

    method RecordDelivery(id: Id, removeFails: bool)
      requires Keyed(entries)
      modifies this, queue, metrics
      ensures Now() == AfterDelivery(old(Now()), id, removeFails)
      ensures Keyed(entries)
    {
      entries := entries - {id};
      var removed := queue.Remove(id, removeFails);
      metrics.delivered := metrics.delivered + 1;
      metrics.pending := |entries|;
    }

    method HandleFailure(entry: QueueEntry, error: SendError, t: Turn)
      requires Keyed(entries)
      modifies this, queue, metrics
      ensures Now() == AfterFailure(config, old(Now()), entry, error, t)
      ensures error.Permanent? || LimitReached(config.retry, entry) ==> entries == old(entries) - {entry.id}
      ensures !error.Permanent? && !LimitReached(config.retry, entry) ==>
                && entry.id in entries && entries == old(entries)[entry.id := entries[entry.id]]
                && PutOff(config.retry, entry, error, t.failNow, entries[entry.id])
                && (t.storeFault.StoreOk? ==>
                      queue.disk.queue == old(queue.disk.queue)[entry.id := Complete(entries[entry.id])])
      ensures Keyed(entries)
    {
      DecideByError(config.retry, entry, error, t.failNow);
      var failed := entry.(attempts := NextAttempts(entry.attempts), lastError := Some(FromTelegram(error)));
      var max := config.retry.maxAttempts;
      var exhausted := max > 0 && failed.attempts >= max;
      if !error.IsRetryable() || exhausted {
        FinishFailed(failed, FromTelegram(error), t.failFault);
        return;
      }
      var asked := error.RetryAfter();
      var delay := if asked.Some? then asked.value else BackoffSeconds(config.retry, failed.attempts);
      failed := failed.(nextAttemptAt := WrappingAdd(t.failNow, delay));
      var stored := queue.Store(failed, t.storeFault);
      entries := entries[failed.id := failed];
    }

    method FinishFailed(entry: QueueEntry, reason: Reason, fault: FailFault)
      requires Keyed(entries)
      modifies this, queue, metrics
      ensures Now() == SetAside(old(Now()), WithReason(entry, reason), fault)
      ensures entries == old(entries) - {entry.id} && metrics.pending == |entries|
      ensures fault.FailOk? ==>
                && entry.id !in queue.disk.queue && FailedNameOf(entry) in queue.disk.failed
                && queue.disk.failed[FailedNameOf(entry)] == Complete(entry.(lastError := Some(reason)))
      ensures Keyed(entries)
    {
      var dead := entry.(lastError := Some(reason));
      var moved := queue.Fail(dead, fault);
      entries := entries - {entry.id};
      metrics.pending := |entries|;
    }
  }

  /** Loads the queue and builds the worker, its count published; nothing is built when loading breaks off. */
  method Spawn(config: Config, queue: Queue, client: Client, listing: seq<DirName>, faults: LoadFaults, brokenAt: nat)
    returns (worker: Worker?)
    modifies queue
    ensures worker != null <==> brokenAt >= |listing|
    ensures worker != null ==>
              && fresh(worker) && fresh(worker.metrics)
              && worker.config == config && worker.queue == queue && worker.client == client
              && Keyed(worker.entries)
              && worker.Now() == (var end := LoadRun(Loading(old(queue.disk), map[]), listing, faults);
                                  View(end.entries, end.disk, |end.entries|, 0, old(client.calls), None))
  {
    var loaded := queue.LoadAll(listing, faults, brokenAt);
    if loaded.None? {
      return null;
    }
    LoadedKeyed(Loading(old(queue.disk), map[]), listing, faults);
    var metrics := new Metrics(|loaded.value|);
    worker := new Worker(config, queue, client, metrics, loaded.value);
  }

  lemma {:induction false} LoadedKeyed(st: Loading, listing: seq<DirName>, faults: LoadFaults)
    requires Keyed(st.entries)
    ensures Keyed(LoadRun(st, listing, faults).entries)
    decreases |listing|
  {
    if listing == [] {
    } else {
      LoadedKeyed(LoadOne(st, listing[0], listing[0] !in faults.unreadable, listing[0] !in faults.immovable),
                  listing[1..], faults);
    }
  }
}
