/**
  The published counters against the truth, and how many entries the daemon can really
  be made to hold: the size check reads a count that leaves out the channel.
*/
module SystemCounts {
  import opened Messages
  import opened System
  import opened SystemShape
  import opened SystemEffects

  // ----- counters -----

  /** `pending` lags the number of held entries by at most one, and only where the worker is about to publish. */
  predicate PendingOk(pc: WorkerPc, pending: nat, held: nat) {
    if pc.Inserted? then held == pending + 1
    else if pc.Unlinking? || pc.Counting? || pc.Forgotten? then pending == held + 1
    else pending == held
  }

  /** Deliveries completed but not yet counted. */
  function Uncounted(pc: WorkerPc): nat {
    if (pc.Talking? && pc.k == |ChunksOf(pc.e, pc.target)|) || pc.Unlinking? || pc.Counting? then 1 else 0
  }

  ghost predicate DeliveredOk(pc: WorkerPc, delivered: nat, receipts: nat, base: nat) {
    base + delivered + Uncounted(pc) == receipts
  }

  // ----- load -----

  ghost function Senders(handlers: map<Conn, Handler>): set<Conn> {
    set c | c in handlers && handlers[c].Sending?
  }

  /** Entries held, in the channel, or past the size check and certain to be sent. */
  ghost function QueueLoad(m: Mem): nat {
    |m.entries| + |m.channel| + |Senders(m.handlers)|
  }

  function Max(a: nat, b: nat): nat {
    if a < b then b else a
  }

  ghost predicate LoadOk(s: Sys) {
    && |s.mem.channel| <= CHANNEL_CAPACITY
    && |s.mem.handlers| <= s.log.peak
    && (s.config.maxQueueSize > 0 ==>
          QueueLoad(s.mem) <= Max(s.log.restored, s.config.maxQueueSize + CHANNEL_CAPACITY + s.log.peak))
  }

  ghost predicate Counted(s: Sys) {
    s.phase.Up? ==>
      && PendingOk(s.mem.pc, s.mem.pending, |s.mem.entries|)
      && DeliveredOk(s.mem.pc, s.mem.delivered, |s.log.receipts|, s.log.base)
      && LoadOk(s)
  }

  /** Down and loading, nothing has been delivered since the last start. */
  ghost predicate BaseOk(s: Sys) {
    s.phase.Booting? ==> s.log.base == |s.log.receipts|
  }

  // ----- cardinalities -----

  lemma SizeAfterRemove<K, V>(m: map<K, V>, k: K)
    requires k in m
    ensures |m - {k}| == |m| - 1
  {
  }

  lemma SizeAfterUpdate<K, V>(m: map<K, V>, k: K, v: V)
    ensures |m[k := v]| == if k in m then |m| else |m| + 1
  {
  }

  lemma SendersUpdate(handlers: map<Conn, Handler>, c: Conn, h: Handler)
    ensures |Senders(handlers[c := h])| ==
            |Senders(handlers)| - (if c in handlers && handlers[c].Sending? then 1 else 0)
                + (if h.Sending? then 1 else 0)
  {
    var before, after := Senders(handlers), Senders(handlers[c := h]);
    assert before - {c} == after - {c};
    assert before == if c in before then (before - {c}) + {c} else before - {c};
    assert after == if c in after then (after - {c}) + {c} else after - {c};
  }

  lemma SendersBound(handlers: map<Conn, Handler>)
    ensures |Senders(handlers)| <= |handlers|
  {
    SubsetSize(Senders(handlers), handlers.Keys);
  }

  lemma {:induction false} SubsetSize<T>(a: set<T>, b: set<T>)
    requires a <= b
    ensures |a| <= |b|
    decreases |a|
  {
    if a == {} {
    } else {
      var x :| x in a;
      SubsetSize(a - {x}, b - {x});
    }
  }

  // ----- what each step does to the load -----

  /** The size check of a notify request passes in this step. */
  ghost predicate CheckPasses(s: Sys, a: Action) {
    && a.OfHandler? && a.ha.Proceed? && a.c in s.mem.handlers && s.mem.handlers[a.c].Checking?
    && !(s.config.maxQueueSize > 0 && s.mem.pending >= s.config.maxQueueSize)
  }

  lemma HandlerLoad(s: Sys, c: Conn, a: HandlerAct)
    requires Shape(s) && Counted(s) && HandlerStep(s, c, a).Some?
    ensures var s' := HandlerStep(s, c, a).value;
            && QueueLoad(s'.mem) == QueueLoad(s.mem) + (if CheckPasses(s, OfHandler(c, a)) then 1
                                                        else if Withdraws(s, c, a) then -1 else 0)
            && |s'.mem.handlers| <= s'.log.peak && |s'.mem.channel| <= CHANNEL_CAPACITY && s.log.peak <= s'.log.peak
            && s'.log.restored == s.log.restored
  {
    match a {
      case Proceed(ok) => ProceedGrows(s, c, ok);
      case Disconnect =>
        assert Senders(s.mem.handlers - {c}) == Senders(s.mem.handlers);
        SizeAfterRemove(s.mem.handlers, c);
      case Connect =>
        SendersUpdate(s.mem.handlers, c, Idle);
        SizeAfterUpdate(s.mem.handlers, c, Idle);
      case Receive(e, _) =>
        SendersUpdate(s.mem.handlers, c, Opening(e));
        SizeAfterUpdate(s.mem.handlers, c, Opening(e));
    }
  }

  lemma ProceedGrows(s: Sys, c: Conn, ok: bool)
    requires Shape(s) && Counted(s) && HandlerStep(s, c, Proceed(ok)).Some?
    ensures var s' := HandlerStep(s, c, Proceed(ok)).value;
            && QueueLoad(s'.mem) == QueueLoad(s.mem) + (if CheckPasses(s, OfHandler(c, Proceed(ok))) then 1
                                                        else if Withdraws(s, c, Proceed(ok)) then -1 else 0)
            && |s'.mem.handlers| <= s'.log.peak && |s'.mem.channel| <= CHANNEL_CAPACITY && s.log.peak <= s'.log.peak
            && s'.log.restored == s.log.restored
  {
    ProceedLoad(s, c, ok);
    var h' := HandlerStep(s, c, Proceed(ok)).value.mem.handlers[c];
    SendersUpdate(s.mem.handlers, c, h');
    SizeAfterUpdate(s.mem.handlers, c, h');
  }

  /** What a handler's step does to the channel, against what it does to its own place. */
  lemma ProceedLoad(s: Sys, c: Conn, ok: bool)
    requires HandlerStep(s, c, Proceed(ok)).Some? && |s.mem.channel| <= CHANNEL_CAPACITY
    ensures var s', h := HandlerStep(s, c, Proceed(ok)).value, s.mem.handlers[c];
            && c in s'.mem.handlers && s'.mem.handlers == s.mem.handlers[c := s'.mem.handlers[c]]
            && s'.mem.entries == s.mem.entries && s'.log.peak == s.log.peak && s'.log.restored == s.log.restored
            && |s'.mem.channel| == |s.mem.channel| + (if h.Sending? && s.mem.pc != Stopped then 1 else 0)
            && |s'.mem.channel| <= CHANNEL_CAPACITY
            && (s'.mem.handlers[c].Sending? <==> CheckPasses(s, OfHandler(c, Proceed(ok))))
  {
    ProceedEffect(s, c, ok);
    match s.mem.handlers[c] {
      case Opening(e) =>
      case Writing(e) =>
      case Renaming(e) =>
      case Checking(e) =>
      case Sending(e) =>
      case Removing(e) =>
      case Acking(id) =>
      case Refusing(id) =>
    }
  }

  /** A request past the check learns that the worker is gone. */
  ghost predicate Withdraws(s: Sys, c: Conn, a: HandlerAct) {
    a.Proceed? && c in s.mem.handlers && s.mem.handlers[c].Sending? && s.mem.pc == Stopped
  }

  lemma HandlerCounted(s: Sys, c: Conn, a: HandlerAct)
    requires Shape(s) && Counted(s) && HandlerStep(s, c, a).Some?
    ensures Counted(HandlerStep(s, c, a).value) && BaseOk(HandlerStep(s, c, a).value)
  {
    var s' := HandlerStep(s, c, a).value;
    HandlerLoad(s, c, a);
    HandlerEffect(s, c, a);
    if s.config.maxQueueSize > 0 {
      SendersBound(s'.mem.handlers);
      assert CheckPasses(s, OfHandler(c, a)) ==> |s.mem.entries| <= s.config.maxQueueSize;
    }
  }

  /** The worker never adds to the load: an insertion takes one from the channel. */
  ghost predicate NoGrowth(s: Sys, s': Sys) {
    && s'.phase == s.phase && s'.config == s.config && s'.mem.handlers == s.mem.handlers
    && |s'.mem.entries| + |s'.mem.channel| <= |s.mem.entries| + |s.mem.channel|
    && |s'.mem.channel| <= |s.mem.channel|
    && s'.log.peak == s.log.peak && s'.log.restored == s.log.restored && s'.log.base == s.log.base
  }

  /** The worker's counters agree again, and the load has not grown. */
  ghost predicate WorkerAgrees(s: Sys, s': Sys) {
    && NoGrowth(s, s')
    && PendingOk(s'.mem.pc, s'.mem.pending, |s'.mem.entries|)
    && DeliveredOk(s'.mem.pc, s'.mem.delivered, |s'.log.receipts|, s'.log.base)
  }

  lemma AgreesCounted(s: Sys, s': Sys)
    requires Counted(s) && s.phase.Up? && WorkerAgrees(s, s')
    ensures Counted(s')
  {
  }

  lemma TakeAgrees(s: Sys, a: WorkerAct)
    requires Shape(s) && Counted(s) && s.phase.Up? && WorkerTake(s, a).Some?
    ensures WorkerAgrees(s, WorkerTake(s, a).value)
  {
    TakeEffect(s, a);
    if Inserts(s, a) {
      SizeAfterUpdate(s.mem.entries, s.mem.channel[0].id, s.mem.channel[0]);
      assert s.mem.channel[0].id !in s.mem.entries;
    }
  }

  lemma TalkAgrees(s: Sys, a: WorkerAct)
    requires Shape(s) && Counted(s) && s.phase.Up? && WorkerTalk(s, a).Some?
    ensures WorkerAgrees(s, WorkerTalk(s, a).value)
  {
    if s.mem.pc.Picking? {
      PickAgrees(s, a);
    } else if a.Answer? {
      if a.reply.Accepted? {
        AcceptedAgrees(s, s.mem.pc.e, s.mem.pc.target, s.mem.pc.k);
      } else {
        RejectedAgrees(s, s.mem.pc.e, s.mem.pc.target, s.mem.pc.k, a.reply.error);
      }
    } else {
      CleanUpAgrees(s, a.ok);
    }
  }

  lemma CleanUpAgrees(s: Sys, ok: bool)
    requires Shape(s) && Counted(s) && s.phase.Up? && !s.mem.pc.Picking? && WorkerTalk(s, Go(ok)).Some?
    ensures WorkerAgrees(s, WorkerTalk(s, Go(ok)).value)
  {
    match s.mem.pc {
      case Talking(e, target, k) => ForgetAgrees(s, e, target, k);
      case Unlinking(_) =>
      case Counting(_) =>
    }
  }

  lemma ForgetAgrees(s: Sys, e: QueueEntry, target: Target, k: nat)
    requires Shape(s) && Counted(s) && s.phase.Up? && s.mem.pc == Talking(e, target, k) && k == |ChunksOf(e, target)|
    ensures WorkerAgrees(s, s.(mem := s.mem.(entries := s.mem.entries - {e.id}, pc := Unlinking(e.id))))
  {
  }

  lemma PickAgrees(s: Sys, a: WorkerAct)
    requires Counted(s) && s.phase.Up? && s.mem.pc == Picking && WorkerTalk(s, a).Some?
    ensures WorkerAgrees(s, WorkerTalk(s, a).value)
  {
    if a.Pick? && a.resolution.Some? {
      TelegramClient.ChunksExist(Escaping.BodyOf(a.entry.message, a.resolution.value));
    }
  }

  lemma AcceptedAgrees(s: Sys, e: QueueEntry, target: Target, k: nat)
    requires Counted(s) && s.phase.Up? && s.mem.pc == Talking(e, target, k) && k < |ChunksOf(e, target)|
    ensures WorkerAgrees(s, ChunkAccepted(s, e, target, k))
  {
  }

  lemma RejectedAgrees(s: Sys, e: QueueEntry, target: Target, k: nat, error: SendError)
    requires Counted(s) && s.phase.Up? && s.mem.pc == Talking(e, target, k) && k < |ChunksOf(e, target)|
    ensures WorkerAgrees(s, ChunkRejected(s, e, target, k, error))
  {
  }

  lemma BuryAgrees(s: Sys, ok: bool)
    requires Shape(s) && Counted(s) && s.phase.Up? && WorkerBury(s, ok).Some?
    ensures WorkerAgrees(s, WorkerBury(s, ok).value)
  {
    SizeAfterRemove(s.mem.entries, s.mem.pc.e.id);
  }

  lemma RetryAgrees(s: Sys, ok: bool)
    requires Shape(s) && Counted(s) && s.phase.Up? && WorkerRetry(s, ok).Some?
    ensures WorkerAgrees(s, WorkerRetry(s, ok).value)
  {
    SizeAfterUpdate(s.mem.entries, s.mem.pc.e.id, s.mem.pc.e);
  }

  lemma WorkerCounted(s: Sys, a: WorkerAct)
    requires Shape(s) && Counted(s) && WorkerStep(s, a).Some?
    ensures Counted(WorkerStep(s, a).value) && NoGrowth(s, WorkerStep(s, a).value) && BaseOk(WorkerStep(s, a).value)
  {
    if Burying(s.mem.pc) {
      BuryAgrees(s, a.ok);
    } else if Retrying(s.mem.pc) {
      RetryAgrees(s, a.ok);
    } else if Speaking(s.mem.pc) {
      TalkAgrees(s, a);
    } else {
      TakeAgrees(s, a);
    }
    AgreesCounted(s, WorkerStep(s, a).value);
  }

  lemma ProcessCounted(s: Sys, a: ProcessAct)
    requires Shape(s) && Counted(s) && BaseOk(s) && ProcessStep(s, a).Some?
    ensures Counted(ProcessStep(s, a).value) && BaseOk(ProcessStep(s, a).value)
  {
    if a.Start? {
      assert Senders(map[]) == {};
    }
  }

  lemma StepCounted(s: Sys, a: Action)
    requires Shape(s) && Counted(s) && BaseOk(s) && Step(s, a).Some?
    ensures Counted(Step(s, a).value) && BaseOk(Step(s, a).value)
  {
    match a {
      case OfHandler(c, ha) => HandlerCounted(s, c, ha);
      case OfProcess(pa) => ProcessCounted(s, pa);
      case OfWorker(wa) => WorkerCounted(s, wa);
    }
  }

  /**
    While the process is up, the load grows only in a step where a size check passes,
    and then by one.
  */
  lemma LoadGrowsOnlyAtTheCheck(s: Sys, a: Action)
    requires Shape(s) && Counted(s) && s.phase.Up? && Step(s, a).Some? && !a.OfProcess?
    ensures var s' := Step(s, a).value;
            if CheckPasses(s, a) then QueueLoad(s'.mem) == QueueLoad(s.mem) + 1
            else QueueLoad(s'.mem) <= QueueLoad(s.mem)
  {
    match a {
      case OfHandler(c, ha) => HandlerLoad(s, c, ha);
      case OfWorker(wa) => WorkerCounted(s, wa);
    }
  }
}
