/**
  The imperative code is the machine's. `WorkerLoop.Worker.Run`, proved to do `AfterTurns`,
  is a run of `System` whatever the connections do while it waits and receives; so are a
  directory load and a notify request that need not wait for room. The theorems about
  reachable states hold at every loop head of that code.
*/
module Refinement {
  import opened Messages
  import opened QueueStore
  import opened Scheduling
  import opened RetryPolicy
  import opened System
  import W = WorkerLoop
  import S = Server
  import SystemEffects

  // ----- runs -----

  ghost predicate Leads(s: Sys, s': Sys) {
    exists actions: seq<Action> :: Run(s, actions) == Some(s')
  }

  lemma Stay(s: Sys)
    ensures Leads(s, s)
  {
    assert Run(s, []) == Some(s);
  }

  /** One more step at the end of a run. */
  lemma Then(s: Sys, m: Sys, a: Action)
    requires Leads(s, m) && Step(m, a).Some?
    ensures Leads(s, Step(m, a).value)
  {
    var actions: seq<Action> :| Run(s, actions) == Some(m);
    RunAppend(s, actions, [a]);
    OneStep(m, a);
    assert Run(s, actions + [a]) == Some(Step(m, a).value);
  }

  lemma OneStep(s: Sys, a: Action)
    requires Step(s, a).Some?
    ensures Run(s, [a]) == Some(Step(s, a).value)
  {
  }

  lemma Chain(s: Sys, m: Sys, s': Sys)
    requires Leads(s, m) && Leads(m, s')
    ensures Leads(s, s')
  {
    var front: seq<Action> :| Run(s, front) == Some(m);
    var back: seq<Action> :| Run(m, back) == Some(s');
    RunAppend(s, front, back);
    assert Run(s, front + back) == Some(s');
  }

  /** The worker takes one step. */
  lemma Work(s: Sys, m: Sys, ok: bool)
    requires Leads(s, m) && WorkerStep(m, Go(ok)).Some?
    ensures Leads(s, WorkerStep(m, Go(ok)).value)
  {
    Then(s, m, OfWorker(Go(ok)));
  }

  lemma SetClock(s: Sys, m: Sys, now: u64)
    requires Leads(s, m)
    ensures Leads(s, ProcessStep(m, Tick(now)).value)
  {
    Then(s, m, OfProcess(Tick(now)));
  }

  // ----- the worker -----

  /** The machine and the worker's view agree on everything they share. */
  ghost predicate Agrees(s: Sys, v: W.View) {
    && s.phase.Up? && s.mem.entries == v.entries && s.disk == v.disk
    && s.mem.pending == v.pending && s.mem.delivered == v.delivered
  }

  /** `s'` differs from `s` only in what the worker owns. */
  ghost predicate SameElse(s: Sys, s': Sys) {
    s'.config == s.config && s'.mem.handlers == s.mem.handlers
  }

  lemma AcceptStep(s: Sys, v: W.View, draining: bool) returns (s': Sys)
    requires Agrees(s, v) && s.mem.channel != [] && s.mem.pc == (if draining then Draining else Waiting)
    ensures Leads(s, s') && Agrees(s', W.AfterAccept(v, s.mem.channel[0])) && SameElse(s, s')
    ensures s'.mem.channel == s.mem.channel[1..] && s'.mem.pc == (if draining then Draining else Head)
    ensures s'.clock == s.clock
  {
    Stay(s);
    var a := if draining then Go(true) else TakeArrival;
    assert WorkerStep(s, a) == Some(Insert(s, draining));
    Then(s, s, OfWorker(a));
    var m := Insert(s, draining);
    Work(s, m, true);
    s' := WorkerStep(m, Go(true)).value;
  }

  /** Moving through `finish_failed`. */
  lemma BuryRun(s: Sys, v: W.View, dead: QueueEntry, fault: FailFault) returns (s': Sys)
    requires Agrees(s, v) && s.mem.pc == DeadOpening(dead)
    ensures Leads(s, s') && Agrees(s', W.SetAside(v, dead, fault)) && SameElse(s, s')
    ensures s'.mem.pc == Head && s'.mem.channel == s.mem.channel
  {
    var m := WriteFailedRun(s, dead, fault);
    s' := DropSteps(m, dead);
    Chain(s, m, s');
  }

  lemma DropSteps(s: Sys, dead: QueueEntry) returns (s': Sys)
    requires s.phase.Up? && s.mem.pc == Dropping(dead)
    ensures Leads(s, s')
    ensures var entries := s.mem.entries - {dead.id};
            s' == s.(mem := s.mem.(entries := entries, pending := |entries|, pc := Head))
  {
    Stay(s);
    Work(s, s, true);
    var m := WorkerStep(s, Go(true)).value;
    assert m.mem.pc == Forgotten;
    Work(s, m, true);
    s' := WorkerStep(m, Go(true)).value;
  }

  lemma WriteFailedRun(s: Sys, dead: QueueEntry, fault: FailFault) returns (m: Sys)
    requires s.phase.Up? && s.mem.pc == DeadOpening(dead)
    ensures Leads(s, m) && m.disk == FailOn(s.disk, dead, fault) && m.mem == s.mem.(pc := Dropping(dead))
    ensures m.phase.Up? && m.config == s.config
  {
    Stay(s);
    Work(s, s, !fault.FailOpenFails?);
    m := WorkerStep(s, Go(!fault.FailOpenFails?)).value;
    if !fault.FailOpenFails? {
      Work(s, m, !fault.FailWriteFails?);
      m := WorkerStep(m, Go(!fault.FailWriteFails?)).value;
      if !fault.FailWriteFails? {
        Work(s, m, !fault.FailUnlinkFails?);
        m := WorkerStep(m, Go(!fault.FailUnlinkFails?)).value;
      }
    }
  }

  /** Moving through the retry branch of `handle_failure`. */
  lemma RetryRun(s: Sys, v: W.View, next: QueueEntry, fault: StoreFault) returns (s': Sys)
    requires Agrees(s, v) && s.mem.pc == RetryOpening(next)
    ensures Leads(s, s') && SameElse(s, s')
    ensures Agrees(s', v.(disk := StoreOn(v.disk, next, fault), entries := v.entries[next.id := next]))
    ensures s'.mem.pc == Head && s'.mem.channel == s.mem.channel
  {
    var m := StoreRetryRun(s, next, fault);
    Work(s, m, true);
    s' := WorkerStep(m, Go(true)).value;
  }

  lemma StoreRetryRun(s: Sys, next: QueueEntry, fault: StoreFault) returns (m: Sys)
    requires s.phase.Up? && s.mem.pc == RetryOpening(next)
    ensures Leads(s, m) && m.disk == StoreOn(s.disk, next, fault) && m.mem == s.mem.(pc := Reinserting(next))
    ensures m.phase.Up? && m.config == s.config
  {
    Stay(s);
    Work(s, s, !fault.StoreOpenFails?);
    m := WorkerStep(s, Go(!fault.StoreOpenFails?)).value;
    if !fault.StoreOpenFails? {
      Work(s, m, !fault.StoreWriteFails?);
      m := WorkerStep(m, Go(!fault.StoreWriteFails?)).value;
      if !fault.StoreWriteFails? {
        Work(s, m, !fault.StoreRenameFails?);
        m := WorkerStep(m, Go(!fault.StoreRenameFails?)).value;
      }
    }
  }

  /** Forgetting a delivered entry. */
  lemma DeliverRun(s: Sys, v: W.View, e: QueueEntry, target: Target, removeFails: bool) returns (s': Sys)
    requires Agrees(s, v) && s.mem.pc == Talking(e, target, |ChunksOf(e, target)|)
    ensures Leads(s, s') && Agrees(s', W.AfterDelivery(v, e.id, removeFails)) && SameElse(s, s')
    ensures s'.mem.pc == Head && s'.mem.channel == s.mem.channel
  {
    var m := ForgetStep(s, e, target);
    s' := CleanUpSteps(m, e.id, removeFails);
    Chain(s, m, s');
  }

  lemma CleanUpSteps(s: Sys, id: Id, removeFails: bool) returns (s': Sys)
    requires s.phase.Up? && s.mem.pc == Unlinking(id)
    ensures Leads(s, s') && s'.config == s.config && s'.phase == s.phase
    ensures s'.disk == if removeFails then s.disk else Unlink(s.disk, id)
    ensures s'.mem == s.mem.(delivered := s.mem.delivered + 1, pending := |s.mem.entries|, pc := Head)
  {
    var n := UnlinkStep(s, id, !removeFails);
    s' := CountSteps(n, id);
    Chain(s, n, s');
  }

  lemma ForgetStep(s: Sys, e: QueueEntry, target: Target) returns (m: Sys)
    requires s.phase.Up? && s.mem.pc == Talking(e, target, |ChunksOf(e, target)|)
    ensures Leads(s, m)
    ensures m == s.(mem := s.mem.(entries := s.mem.entries - {e.id}, pc := Unlinking(e.id)))
  {
    Stay(s);
    Work(s, s, true);
    m := s.(mem := s.mem.(entries := s.mem.entries - {e.id}, pc := Unlinking(e.id)));
  }

  lemma UnlinkStep(s: Sys, id: Id, ok: bool) returns (m: Sys)
    requires s.phase.Up? && s.mem.pc == Unlinking(id)
    ensures Leads(s, m)
    ensures m == Pc(if ok then OnDisk(s, Unlink(s.disk, id)) else Fault(s, id), Counting(id))
  {
    Stay(s);
    Work(s, s, ok);
    m := Pc(if ok then OnDisk(s, Unlink(s.disk, id)) else Fault(s, id), Counting(id));
  }

  lemma CountSteps(s: Sys, id: Id) returns (s': Sys)
    requires s.phase.Up? && s.mem.pc == Counting(id)
    ensures Leads(s, s')
    ensures s' == s.(mem := s.mem.(delivered := s.mem.delivered + 1, pending := |s.mem.entries|, pc := Head))
  {
    Stay(s);
    Work(s, s, true);
    var m := WorkerStep(s, Go(true)).value;
    assert m.mem.pc == Forgotten;
    Work(s, m, true);
    s' := WorkerStep(m, Go(true)).value;
  }

  /** Where an attempt ends up once Telegram has answered. */
  function Verdicted(retry: RetryConfig, e: QueueEntry, error: SendError, now: u64): WorkerPc {
    match Decide(retry, e, error, now)
    case GiveUp(dead) => DeadOpening(dead)
    case Retry(next, _) => RetryOpening(next)
  }

  /** The conversation, from chunk `k` on. */
  lemma {:induction false} TalkRun(s: Sys, e: QueueEntry, target: Target, k: nat, api: nat -> TelegramClient.Reply)
    returns (s': Sys)
    requires s.phase.Up? && s.mem.pc == Talking(e, target, k)
    requires k <= TelegramClient.AcceptedPrefix(api, |ChunksOf(e, target)|)
    ensures Leads(s, s') && s'.phase.Up? && s'.config == s.config && s'.disk == s.disk && s'.clock == s.clock
    ensures var error := TelegramClient.AttemptError(Escaping.BodyOf(e.message, target), api);
            s'.mem == s.mem.(pc := if error.None? then Talking(e, target, |ChunksOf(e, target)|)
                                   else Verdicted(s.config.retry, e, error.value, s.clock))
    decreases |ChunksOf(e, target)| - k
  {
    var n := |ChunksOf(e, target)|;
    Stay(s);
    if k == n {
      s' := s;
    } else {
      var m := AnswerStep(s, e, target, k, api(k));
      Then(s, s, OfWorker(Answer(api(k))));
      if api(k).Accepted? {
        s' := TalkRun(m, e, target, k + 1, api);
        Chain(s, m, s');
      } else {
        RejectedAt(Escaping.BodyOf(e.message, target), api, k);
        s' := m;
      }
    }
  }

  /** The first rejected chunk is the outcome of the attempt. */
  lemma RejectedAt(body: string, api: nat -> TelegramClient.Reply, k: nat)
    requires k < |TelegramClient.Chunks(body)| && !api(k).Accepted?
    requires k <= TelegramClient.AcceptedPrefix(api, |TelegramClient.Chunks(body)|)
    ensures TelegramClient.AttemptError(body, api) == Some(api(k).error)
  {
  }

  lemma AnswerStep(s: Sys, e: QueueEntry, target: Target, k: nat, reply: TelegramClient.Reply) returns (m: Sys)
    requires s.phase.Up? && s.mem.pc == Talking(e, target, k) && k < |ChunksOf(e, target)|
    ensures Step(s, OfWorker(Answer(reply))) == Some(m)
    ensures m.phase == s.phase && m.config == s.config && m.disk == s.disk && m.clock == s.clock
    ensures m.mem == s.mem.(pc := if reply.Accepted? then Talking(e, target, k + 1)
                                  else Verdicted(s.config.retry, e, reply.error, s.clock))
  {
    m := if reply.Accepted? then ChunkAccepted(s, e, target, k) else ChunkRejected(s, e, target, k, reply.error);
  }

  /** From the first chunk to the loop head. */
  lemma SpeakRun(s: Sys, v: W.View, e: QueueEntry, target: Target, t: W.Turn) returns (s': Sys)
    requires Agrees(s, v) && s.mem.pc == Talking(e, target, 0) && s.clock == t.failNow
    ensures Leads(s, s') && SameElse(s, s') && s'.mem.pc == Head && s'.mem.channel == s.mem.channel
    ensures var error := TelegramClient.AttemptError(Escaping.BodyOf(e.message, target), t.api);
            Agrees(s', if error.None? then W.AfterDelivery(v, e.id, t.removeFails)
                       else W.AfterFailure(s.config, v, e, error.value, t))
  {
    var error := TelegramClient.AttemptError(Escaping.BodyOf(e.message, target), t.api);
    var m := TalkRun(s, e, target, 0, t.api);
    if error.None? {
      s' := DeliverRun(m, v, e, target, t.removeFails);
    } else {
      match Decide(s.config.retry, e, error.value, t.failNow) {
        case GiveUp(dead) => s' := BuryRun(m, v, dead, t.failFault);
        case Retry(next, _) => s' := RetryRun(m, v, next, t.storeFault);
      }
    }
    Chain(s, m, s');
  }

  // ----- the connections -----

  /** What the connections do before the worker's next receive, as the state stands. */
  type Connections = Sys -> seq<Action>

  ghost predicate OnlyHandlers(actions: seq<Action>) {
    forall i :: 0 <= i < |actions| ==> actions[i].OfHandler?
  }

  /** They do only what connections can do. */
  ghost predicate Able(conn: Connections) {
    forall s: Sys :: s.phase.Up? ==> OnlyHandlers(conn(s)) && Run(s, conn(s)).Some?
  }

  /** The machine and the view agree on everything but the directories, which connections write to. */
  ghost predicate Follows(s: Sys, v: W.View) {
    Agrees(s, v.(disk := s.disk))
  }

  ghost predicate SameWorker(s: Sys, s': Sys) {
    && s'.phase == s.phase && s'.config == s.config && s'.clock == s.clock && s'.mem.pc == s.mem.pc
    && s'.mem.entries == s.mem.entries && s'.mem.pending == s.mem.pending && s'.mem.delivered == s.mem.delivered
  }

  lemma {:induction false} HandlersRun(s: Sys, actions: seq<Action>)
    requires s.phase.Up? && OnlyHandlers(actions) && Run(s, actions).Some?
    ensures SameWorker(s, Run(s, actions).value)
    decreases |actions|
  {
    if actions == [] {
    } else {
      HandlerLeavesWorker(s, actions[0].c, actions[0].ha);
      HandlersRun(Step(s, actions[0]).value, actions[1..]);
    }
  }

  lemma HandlerLeavesWorker(s: Sys, c: Conn, a: HandlerAct)
    requires HandlerStep(s, c, a).Some?
    ensures SameWorker(s, HandlerStep(s, c, a).value)
  {
    SystemEffects.HandlerEffect(s, c, a);
  }

  /** The connections act. */
  lemma Meanwhile(s: Sys, conn: Connections) returns (m: Sys)
    requires s.phase.Up? && Able(conn)
    ensures Leads(s, m) && SameWorker(s, m)
  {
    m := Run(s, conn(s)).value;
    HandlersRun(s, conn(s));
  }

  // ----- a pass -----

  /** Accepting does not touch the directories. */
  lemma {:induction false} AcceptingKeepsDisk(v: W.View, arrivals: seq<QueueEntry>, d: Disk)
    ensures W.AfterAcceptAll(v.(disk := d), arrivals) == W.AfterAcceptAll(v, arrivals).(disk := d)
    decreases |arrivals|
  {
    if arrivals == [] {
    } else {
      assert W.AfterAccept(v.(disk := d), arrivals[0]) == W.AfterAccept(v, arrivals[0]).(disk := d);
      AcceptingKeepsDisk(W.AfterAccept(v, arrivals[0]), arrivals[1..], d);
    }
  }

  /**
    The drain, with connections acting before each of the first `busy` receives: it
    yields what they have put in the channel.
  */
  lemma {:induction false} DrainRun(s: Sys, v: W.View, conn: Connections, busy: nat)
    returns (waiting: seq<QueueEntry>, s': Sys)
    requires Follows(s, v) && s.mem.pc == Draining && Able(conn)
    ensures Leads(s, s') && Follows(s', W.AfterAcceptAll(v, waiting))
    ensures s'.mem.pc == Picking && s'.clock == s.clock && s'.config == s.config
    decreases busy, |s.mem.channel|
  {
    Stay(s);
    var m := s;
    if busy > 0 {
      m := Meanwhile(s, conn);
    }
    if m.mem.channel == [] {
      waiting := [];
      Work(s, m, true);
      s' := WorkerStep(m, Go(true)).value;
    } else {
      var e := m.mem.channel[0];
      var m1 := AcceptStep(m, v.(disk := m.disk), true);
      assert Follows(m1, W.AfterAccept(v, e));
      var rest;
      rest, s' := DrainRun(m1, W.AfterAccept(v, e), conn, if busy > 0 then busy - 1 else 0);
      waiting := [e] + rest;
      Chain(s, m, m1);
      Chain(s, m1, s');
    }
  }

  /** The turn has the contributions of `input`, except for what the connections decide. */
  ghost predicate SameOutside(t: W.Turn, input: W.Turn) {
    && t == input.(waiting := t.waiting, others := t.others, wake := t.wake)
    && (t.wake == input.wake || (input.wake.Received? && (t.wake.Slept? || t.wake.Received?)))
  }

  /**
    A pass of the worker's loop is a run of the machine, ending at the loop head or
    stopped: for whatever the connections do before each receive, during the rate
    limit's wait and during the attempt, with the arrivals and directories that result.
  */
  lemma TurnIsRun(s: Sys, v: W.View, input: W.Turn, conn: Connections, busy: nat) returns (t: W.Turn, s': Sys)
    requires Agrees(s, v) && s.mem.pc == Head && Keyed(v.entries) && Able(conn)
    ensures SameOutside(t, input)
    ensures Leads(s, s') && Agrees(s', W.AfterTurn(s.config, v, t)) && s'.config == s.config
    ensures s'.mem.pc == if W.Stops(v, t) then Stopped else Head
  {
    Stay(s);
    SetClock(s, s, input.headNow);
    var m := ProcessStep(s, Tick(input.headNow)).value;
    Work(s, m, true);
    m := WorkerStep(m, Go(true)).value;
    if HasDue(v.entries, input.headNow) {
      t, s' := BusyRun(m, v, input, conn, busy);
    } else {
      t, s' := IdleRun(m, v, input, conn);
    }
    Chain(s, m, s');
  }

  lemma BusyRun(s: Sys, v: W.View, input: W.Turn, conn: Connections, busy: nat) returns (t: W.Turn, s': Sys)
    requires Agrees(s, v) && s.mem.pc == Draining && Keyed(v.entries) && Able(conn)
    ensures SameOutside(t, input) && t.wake == input.wake
    ensures Leads(s, s') && Agrees(s', W.AfterBusyTurn(s.config, W.Seen(v, t), t))
    ensures s'.config == s.config && s'.mem.pc == Head
  {
    var waiting, drained := DrainRun(s, v, conn, busy);
    var m := Meanwhile(drained, conn);
    SetClock(drained, m, input.pickNow);
    var n := ProcessStep(m, Tick(input.pickNow)).value;
    Chain(s, drained, n);
    AcceptedKeyed(v, waiting);
    var v1 := W.AfterAcceptAll(v, waiting);
    t, s' := AttemptNextRun(n, v1, input.(waiting := waiting), conn);
    AcceptingKeepsDisk(v, waiting, t.others(v.disk));
    Chain(s, n, s');
  }

  /** From `Picking` to the loop head: `attempt_next`. */
  lemma AttemptNextRun(s: Sys, v: W.View, input: W.Turn, conn: Connections) returns (t: W.Turn, s': Sys)
    requires Follows(s, v) && s.mem.pc == Picking && s.clock == input.pickNow && Keyed(v.entries) && Able(conn)
    ensures t == input.(others := t.others) && forall d, d' :: t.others(d) == t.others(d')
    ensures var seen := W.Seen(v, t);
            Leads(s, s') && Agrees(s', W.AfterAttemptNext(s.config, seen, W.StartMs(s.config, seen, t), t))
    ensures s'.config == s.config && s'.mem.pc == Head
  {
    NextExists(v.entries, input.pickNow);
    var picked := Next(v.entries, input.pickNow);
    if picked.None? {
      t := input.(others := _ => s.disk);
      Stay(s);
      Work(s, s, true);
      s' := WorkerStep(s, Go(true)).value;
    } else {
      var m := PickedRun(s, picked.value, input, conn);
      t := input.(others := _ => m.disk);
      var seen := W.Seen(v, t);
      s' := AttemptRun(m, seen, picked.value, W.StartMs(s.config, seen, t), t);
      Chain(s, m, s');
    }
  }

  /** The entry is picked; if there is somebody to send it to, the connections act while Telegram is asked. */
  lemma PickedRun(s: Sys, e: QueueEntry, input: W.Turn, conn: Connections) returns (m: Sys)
    requires s.phase.Up? && s.mem.pc == Picking && IsNextDue(s.mem.entries, s.clock, e) && Able(conn)
    ensures Leads(s, m) && SameWorker(s.(clock := m.clock, mem := s.mem.(pc := m.mem.pc)), m)
    ensures if input.resolution.None? then m.mem.pc == DeadOpening(W.WithReason(e, Unresolvable(input.resolveError)))
            else m.mem.pc == Talking(e, input.resolution.value, 0) && m.clock == input.failNow
  {
    Stay(s);
    var pick := Pick(e, input.resolution, input.resolveError);
    assert WorkerStep(s, pick).Some?;
    Then(s, s, OfWorker(pick));
    m := WorkerStep(s, pick).value;
    if input.resolution.Some? {
      var n := Meanwhile(m, conn);
      SetClock(m, n, input.failNow);
      Chain(s, m, ProcessStep(n, Tick(input.failNow)).value);
      m := ProcessStep(n, Tick(input.failNow)).value;
    }
  }

  /** The rest of `attempt_next`. */
  lemma AttemptRun(s: Sys, v: W.View, e: QueueEntry, startMs: nat, t: W.Turn) returns (s': Sys)
    requires Agrees(s, v)
    requires if t.resolution.None? then s.mem.pc == DeadOpening(W.WithReason(e, Unresolvable(t.resolveError)))
             else s.mem.pc == Talking(e, t.resolution.value, 0) && s.clock == t.failNow
    ensures Leads(s, s') && Agrees(s', W.AfterAttempt(s.config, v, e, startMs, t)) && SameElse(s, s')
    ensures s'.mem.pc == Head
  {
    if t.resolution.None? {
      s' := BuryRun(s, v, W.WithReason(e, Unresolvable(t.resolveError)), t.failFault);
    } else {
      s' := SpeakRun(s, W.Called(v, e, t.resolution.value, startMs, t), e, t.resolution.value, t);
    }
  }

  lemma {:induction false} AcceptedKeyed(v: W.View, arrivals: seq<QueueEntry>)
    requires Keyed(v.entries)
    ensures Keyed(W.AfterAcceptAll(v, arrivals).entries)
    decreases |arrivals|
  {
    if arrivals == [] {
    } else {
      AcceptedKeyed(W.AfterAccept(v, arrivals[0]), arrivals[1..]);
    }
  }

  /** `recv` gives the front of the channel, or nothing is there to give. */
  function Woken(wake: W.Wake, channel: seq<QueueEntry>): W.Wake {
    if !wake.Received? then wake else if channel == [] then W.Slept else W.Received(channel[0])
  }

  lemma IdleRun(s: Sys, v: W.View, input: W.Turn, conn: Connections) returns (t: W.Turn, s': Sys)
    requires Agrees(s, v) && s.mem.pc == Waiting && Able(conn)
    ensures SameOutside(t, input) && t.headNow == input.headNow
    ensures Leads(s, s') && s'.config == s.config
    ensures Agrees(s', if t.wake.Received? then W.AfterAccept(W.Seen(v, t), t.wake.entry) else W.Seen(v, t))
    ensures s'.mem.pc == if t.wake.Shutdown? || t.wake.Closed? then Stopped else Head
  {
    var m := Meanwhile(s, conn);
    t := input.(others := _ => m.disk, wake := Woken(input.wake, m.mem.channel));
    s' := WakeRun(m, W.Seen(v, t), t.wake);
    Chain(s, m, s');
  }

  lemma WakeRun(s: Sys, v: W.View, wake: W.Wake) returns (s': Sys)
    requires Agrees(s, v) && s.mem.pc == Waiting
    requires wake.Received? ==> s.mem.channel != [] && s.mem.channel[0] == wake.entry
    ensures Leads(s, s') && s'.config == s.config
    ensures Agrees(s', if wake.Received? then W.AfterAccept(v, wake.entry) else v)
    ensures s'.mem.pc == if wake.Shutdown? || wake.Closed? then Stopped else Head
  {
    Stay(s);
    match wake {
      case Received(_) => s' := AcceptStep(s, v, false);
      case Slept =>
        Work(s, s, true);
        s' := WorkerStep(s, Go(true)).value;
      case _ =>
        Then(s, s, OfWorker(Stop));
        s' := WorkerStep(s, Stop).value;
    }
  }

  // ----- the loop -----

  lemma TurnKeyed(config: Config, v: W.View, t: W.Turn)
    requires Keyed(v.entries)
    ensures Keyed(W.AfterTurn(config, v, t).entries)
  {
    AcceptedKeyed(W.Seen(v, t), t.waiting);
  }

  ghost predicate AllSameOutside(turns: seq<W.Turn>, inputs: seq<W.Turn>)
    decreases |inputs|
  {
    && |turns| == |inputs|
    && (inputs == [] || (SameOutside(turns[0], inputs[0]) && AllSameOutside(turns[1..], inputs[1..])))
  }

  lemma {:induction false} SameInputs(inputs: seq<W.Turn>)
    ensures AllSameOutside(inputs, inputs)
    decreases |inputs|
  {
    if inputs == [] {
    } else {
      SameInputs(inputs[1..]);
    }
  }

  lemma ConsSameOutside(t: W.Turn, rest: seq<W.Turn>, inputs: seq<W.Turn>)
    requires inputs != [] && SameOutside(t, inputs[0]) && AllSameOutside(rest, inputs[1..])
    ensures AllSameOutside([t] + rest, inputs)
  {
    assert ([t] + rest)[1..] == rest;
  }

  /**
    The worker's loop is a run of the machine: for any contributions of the outside and
    whatever the connections do in pass `i`, `WorkerLoop.Worker.Run` takes the state of
    the worker where the machine goes.
  */
  lemma {:induction false} LoopIsRun(
    s: Sys, v: W.View, inputs: seq<W.Turn>, conns: nat -> Connections, i: nat, busy: nat)
    returns (turns: seq<W.Turn>, s': Sys)
    requires Agrees(s, v) && s.mem.pc == Head && Keyed(v.entries)
    requires forall k: nat :: Able(conns(k))
    ensures AllSameOutside(turns, inputs)
    ensures Leads(s, s') && Agrees(s', W.AfterTurns(s.config, v, turns))
    ensures Reachable(s) ==> Reachable(s')
    decreases |inputs|
  {
    if inputs == [] {
      turns, s' := [], s;
      Stay(s);
    } else {
      var t, m := TurnIsRun(s, v, inputs[0], conns(i), busy);
      var rest;
      if W.Stops(v, t) {
        rest, s' := inputs[1..], m;
        SameInputs(rest);
      } else {
        TurnKeyed(s.config, v, t);
        rest, s' := LoopIsRun(m, W.AfterTurn(s.config, v, t), inputs[1..], conns, i + 1, busy);
        Chain(s, m, s');
      }
      turns := [t] + rest;
      ConsSameOutside(t, rest, inputs);
      TurnsCons(s.config, v, t, rest);
      LeadsReachable(s, s');
    }
  }

  lemma TurnsCons(config: Config, v: W.View, t: W.Turn, rest: seq<W.Turn>)
    ensures W.AfterTurns(config, v, [t] + rest)
         == (var v' := W.AfterTurn(config, v, t); if W.Stops(v, t) then v' else W.AfterTurns(config, v', rest))
  {
    assert ([t] + rest)[1..] == rest;
  }

  lemma LeadsReachable(s: Sys, s': Sys)
    requires Leads(s, s')
    ensures Reachable(s) ==> Reachable(s')
  {
    var actions: seq<Action> :| Run(s, actions) == Some(s');
    if Reachable(s) {
      ReachableRun(s, actions);
    }
  }

  // ----- loading -----

  /** Reading the queue directory, in any order and with any faults, is a run of the machine. */
  lemma {:induction false} LoadIsRun(s: Sys, listing: seq<DirName>, faults: LoadFaults) returns (s': Sys)
    requires s.phase.Booting?
    requires forall i :: 0 <= i < |listing| ==> listing[i] in s.phase.todo && !listing[i].Foreign?
    requires forall i, j :: 0 <= i < j < |listing| ==> listing[i] != listing[j]
    ensures Leads(s, s') && s'.phase.Booting?
    ensures Loading(s'.disk, s'.mem.entries) == LoadRun(Loading(s.disk, s.mem.entries), listing, faults)
    ensures forall name :: name in s'.phase.todo <==> name in s.phase.todo && name !in listing
    decreases |listing|
  {
    Stay(s);
    if listing == [] {
      s' := s;
    } else {
      var name, rest := listing[0], listing[1..];
      var load := Load(name, name !in faults.unreadable, name !in faults.immovable);
      var m := LoadStep(s, name, load.readable, load.movable);
      Then(s, s, OfProcess(load));
      assert forall i :: 0 <= i < |rest| ==> rest[i] == listing[i + 1];
      s' := LoadIsRun(m, rest, faults);
      Chain(s, m, s');
      assert listing == [name] + rest;
    }
  }

  lemma LoadStep(s: Sys, name: DirName, readable: bool, movable: bool) returns (m: Sys)
    requires s.phase.Booting? && name in s.phase.todo && !name.Foreign?
    ensures Step(s, OfProcess(Load(name, readable, movable))) == Some(m)
    ensures m.phase == Booting(s.phase.todo - {name})
    ensures Loading(m.disk, m.mem.entries) == LoadOne(Loading(s.disk, s.mem.entries), name, readable, movable)
  {
    m := LoadName(s, name, readable, movable);
  }

  // ----- a notify request -----

  /** The handler of `c` takes one step. */
  lemma Handle(s: Sys, m: Sys, c: Conn, a: HandlerAct)
    requires Leads(s, m) && HandlerStep(m, c, a).Some?
    ensures Leads(s, HandlerStep(m, c, a).value)
  {
    Then(s, m, OfHandler(c, a));
  }

  /** `Queue::store` for a request just received. */
  lemma StoreRun(s: Sys, c: Conn, e: QueueEntry, fault: StoreFault) returns (m: Sys)
    requires s.phase.Up? && c in s.mem.handlers && s.mem.handlers[c] == Opening(e)
    ensures Leads(s, m) && m.phase.Up? && m.config == s.config
    ensures m.disk == StoreOn(s.disk, e, fault)
    ensures m.mem == s.mem.(handlers := s.mem.handlers[c := if fault.StoreOk? then Checking(e) else Refusing(e.id)])
    ensures m.log == s.log.(faulty := m.log.faulty)
  {
    Stay(s);
    Handle(s, s, c, Proceed(!fault.StoreOpenFails?));
    m := HandlerStep(s, c, Proceed(!fault.StoreOpenFails?)).value;
    if !fault.StoreOpenFails? {
      Handle(s, m, c, Proceed(!fault.StoreWriteFails?));
      m := HandlerStep(m, c, Proceed(!fault.StoreWriteFails?)).value;
      if !fault.StoreWriteFails? {
        Handle(s, m, c, Proceed(!fault.StoreRenameFails?));
        m := HandlerStep(m, c, Proceed(!fault.StoreRenameFails?)).value;
      }
    }
  }

  /** From the size check to the reply, with room in the channel or the worker gone. */
  lemma SubmitRun(s: Sys, c: Conn, e: QueueEntry, removeFails: bool) returns (m: Sys)
    requires s.phase.Up? && c in s.mem.handlers && s.mem.handlers[c] == Checking(e)
    requires s.mem.pc == Stopped || |s.mem.channel| < CHANNEL_CAPACITY
    ensures Leads(s, m) && m.phase.Up? && c in m.mem.handlers && m.log.requests == s.log.requests
    ensures var accepted := s.mem.pc != Stopped && !(s.config.maxQueueSize > 0
                                                     && s.mem.pending >= s.config.maxQueueSize);
            && m.disk == (if accepted || removeFails then s.disk else Unlink(s.disk, e.id))
            && m.mem.channel == (if accepted then s.mem.channel + [e] else s.mem.channel)
            && m.mem.handlers[c] == (if accepted then Acking(e.id) else Refusing(e.id))
  {
    Stay(s);
    Handle(s, s, c, Proceed(true));
    m := HandlerStep(s, c, Proceed(true)).value;
    if m.mem.handlers[c].Sending? {
      Handle(s, m, c, Proceed(true));
      m := HandlerStep(m, c, Proceed(true)).value;
    }
    if m.mem.handlers[c].Removing? {
      Handle(s, m, c, Proceed(!removeFails));
      m := HandlerStep(m, c, Proceed(!removeFails)).value;
    }
  }

  /** The line the machine's channel and worker make. */
  function LineOf(m: Mem): S.Line {
    S.Line(m.channel, m.pc != Stopped)
  }

  /** The request becomes the entry `e`. */
  lemma ReceiveRun(s: Sys, c: Conn, e: QueueEntry, request: NotifyRequest) returns (m: Sys)
    requires s.phase.Up? && c in s.mem.handlers && s.mem.handlers[c] == Idle && IsNew(s, e) && Carries(e, request)
    ensures Leads(s, m) && m == At(s, c, Opening(e)).(log := Asked(s.log, e, request))
  {
    Stay(s);
    Handle(s, s, c, Receive(e, request));
    m := HandlerStep(s, c, Receive(e, request)).value;
  }

  /**
    An acceptable notify request that need not wait for room is a run of the machine with
    the same answer, and what the machine records under its id is this request.
  */
  lemma NotifyIsRun(s: Sys, c: Conn, config: S.ServerConfig, request: NotifyRequest, env: S.Env) returns (s': Sys)
    requires s.phase.Up? && c in s.mem.handlers && s.mem.handlers[c] == Idle && env.id !in s.log.orig
    requires env.now == s.clock
    requires s.mem.pc == Stopped || |s.mem.channel| < CHANNEL_CAPACITY
    requires S.Precheck(config, request).None? && S.Resolves(LineOf(s.mem), env.meanwhile)
    ensures var full := s.config.maxQueueSize > 0 && s.mem.pending >= s.config.maxQueueSize;
            var served := S.AfterNotify(config, s.disk, LineOf(s.mem), full, request, env);
            && Leads(s, s') && s'.disk == served.disk && s'.mem.channel == served.line.items
            && c in s'.mem.handlers
            && s'.mem.handlers[c] == (match served.response case Queued(id) => Acking(id) case _ => Refusing(env.id))
    ensures env.id in s'.log.requests && s'.log.requests[env.id] == request
  {
    var e := NewEntry(request, S.TargetName(config, request), env.id, env.now);
    var m := ReceiveRun(s, c, e, request);
    var m1 := StoreRun(m, c, e, env.storeFault);
    Chain(s, m, m1);
    if env.storeFault.StoreOk? {
      s' := SubmitRun(m1, c, e, env.removeFails);
      Chain(s, m1, s');
    } else {
      s' := m1;
    }
  }
}
