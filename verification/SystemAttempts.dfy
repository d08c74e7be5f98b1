/**
  How often a message can be attempted. Within one process lifetime the attempts started
  for an id never exceed what its retry state at the start, or its creation since, leaves
  it. Attempts are counted in `Log.tried`.
*/
module SystemAttempts {
  import opened Messages
  import opened RetryPolicy
  import opened System
  import opened SystemShape
  import opened SystemEffects

  /** The attempts an id may cost in this lifetime, with a limit set. */
  function Allowance(retry: RetryConfig, loaded: map<Id, QueueEntry>, id: Id): nat {
    if id in loaded then Budget(retry, loaded[id]) else retry.maxAttempts
  }

  /** The counter is not about to wrap around. */
  predicate Sound(loaded: map<Id, QueueEntry>, id: Id) {
    id in loaded ==> loaded[id].attempts < U32_LIMIT - 1
  }

  /** The attempts spent on a held id, and those its present state allows, are within the allowance. */
  predicate HeldOk(retry: RetryConfig, log: Log, entries: map<Id, QueueEntry>, pc: WorkerPc, id: Id)
    requires id in entries
  {
    var tried, allowance := log.tried[id], Allowance(retry, log.loaded, id);
    if Burying(pc) && pc.e.id == id then tried <= allowance
    else if Retrying(pc) && pc.e.id == id then tried + Budget(retry, pc.e) <= allowance && pc.e.attempts < U32_LIMIT - 1
    else
      && tried + Budget(retry, entries[id]) <= allowance + (if pc.Talking? && pc.e.id == id then 1 else 0)
      && entries[id].attempts < U32_LIMIT - 1
  }

  ghost predicate NotTried(log: Log, id: Id) {
    log.tried[id] == 0 && log.everTried[id] == 0 && id !in log.loaded
  }

  ghost predicate Known(log: Log) {
    log.loaded.Keys <= log.orig.Keys && forall id :: log.tried[id] > 0 ==> id in log.orig
  }

  ghost predicate AllHeldOk(retry: RetryConfig, log: Log, entries: map<Id, QueueEntry>, pc: WorkerPc) {
    retry.maxAttempts > 0 ==> forall id :: id in entries && Sound(log.loaded, id) ==>
        HeldOk(retry, log, entries, pc, id)
  }

  ghost predicate WithinAllowance(retry: RetryConfig, log: Log) {
    retry.maxAttempts > 0 ==> forall id :: Sound(log.loaded, id) ==> log.tried[id] <= Allowance(retry, log.loaded, id)
  }

  ghost predicate AttemptsOk(s: Sys) {
    && (forall id :: id in s.log.orig ==> s.log.orig[id].attempts == 0)
    && (forall id :: s.log.everTried[id] > 0 ==> id in s.log.orig)
    && (s.phase.Booting? ==> s.log.tried == multiset{})
    && (s.phase.Up? ==>
          && Known(s.log)
          && AllHeldOk(s.config.retry, s.log, s.mem.entries, s.mem.pc)
          && WithinAllowance(s.config.retry, s.log)
          && forall id :: Coming(s.mem, id) ==> NotTried(s.log, id))
  }

  /** What this file reads of the log is unchanged. */
  predicate SameAttempts(log: Log, log': Log) {
    log'.orig == log.orig && log'.tried == log.tried && log'.everTried == log.everTried && log'.loaded == log.loaded
  }

  /** Nothing is attempted, and nobody starts coming. */
  lemma KeepAttempts(s: Sys, s': Sys)
    requires AttemptsOk(s) && s.phase.Up? && s'.phase == s.phase && s'.config == s.config
    requires SameAttempts(s.log, s'.log)
    requires AllHeldOk(s.config.retry, s.log, s'.mem.entries, s'.mem.pc)
    requires forall id :: Coming(s'.mem, id) ==> Coming(s.mem, id)
    ensures AttemptsOk(s')
  {
    assert AllHeldOk(s.config.retry, s'.log, s'.mem.entries, s'.mem.pc);
  }

  // ----- handlers -----

  lemma HandlerAttempts(s: Sys, c: Conn, a: HandlerAct)
    requires Shape(s) && AttemptsOk(s) && HandlerStep(s, c, a).Some?
    ensures AttemptsOk(HandlerStep(s, c, a).value)
  {
    var s' := HandlerStep(s, c, a).value;
    HandlerEffect(s, c, a);
    forall id | Coming(s'.mem, id) ensures NotTried(s'.log, id) {
      HandlerNewcomers(s, c, a, id);
    }
    assert AllHeldOk(s.config.retry, s'.log, s'.mem.entries, s'.mem.pc);
  }

  // ----- the worker -----

  /** The worker's own step: channel and handlers stay. */
  lemma WorkerKeeps(s: Sys, s': Sys)
    requires AttemptsOk(s) && s.phase.Up? && s'.phase == s.phase && s'.config == s.config
    requires SameAttempts(s.log, s'.log) && s'.mem.handlers == s.mem.handlers && s'.mem.channel == s.mem.channel
    requires AllHeldOk(s.config.retry, s.log, s'.mem.entries, s'.mem.pc)
    ensures AttemptsOk(s')
  {
    KeepAttempts(s, s');
  }

  /** No entry is in the worker's hands. */
  predicate HandsFree(pc: WorkerPc) {
    !Burying(pc) && !Retrying(pc) && !pc.Talking?
  }

  lemma InsertAttempts(s: Sys, draining: bool)
    requires Shape(s) && AttemptsOk(s) && s.phase.Up? && s.mem.channel != [] && HandsFree(s.mem.pc)
    ensures AttemptsOk(Insert(s, draining))
  {
    var s', e := Insert(s, draining), s.mem.channel[0];
    forall id | Coming(s'.mem, id) ensures Coming(s.mem, id) {
      PopMembers(s.mem.channel, id);
    }
    assert Coming(s.mem, e.id) by {
      PopMembers(s.mem.channel, e.id);
    }
    assert NotTried(s.log, e.id) && e.attempts == 0;
    KeepAttempts(s, s');
  }

  lemma TakeAttempts(s: Sys, a: WorkerAct)
    requires Shape(s) && AttemptsOk(s) && s.phase.Up? && WorkerTake(s, a).Some?
    ensures AttemptsOk(WorkerTake(s, a).value)
  {
    TakeEffect(s, a);
    if Inserts(s, a) {
      InsertAttempts(s, s.mem.pc.Draining?);
    } else if s.mem.pc.Waiting? && a.Stop? {
      assert forall id :: !InChannel([], id);
      KeepAttempts(s, WorkerTake(s, a).value);
    } else {
      TakesFree(s, a);
      WorkerKeeps(s, WorkerTake(s, a).value);
    }
  }

  lemma TakesFree(s: Sys, a: WorkerAct)
    requires WorkerTake(s, a).Some?
    ensures HandsFree(s.mem.pc)
  {
  }

  /** One more attempt on an id whose state still allows one. */
  lemma AttemptCounts(s: Sys, e: QueueEntry, target: Target)
    requires Shape(s) && AttemptsOk(s) && s.phase.Up? && s.mem.pc == Picking
    requires e.id in s.mem.entries && s.mem.entries[e.id] == e
    ensures AttemptsOk(Attempt(s, e, target))
  {
    var s' := Attempt(s, e, target);
    var retry := s.config.retry;
    HeldIsNotComing(s, e.id);
    if retry.maxAttempts > 0 {
      forall id | id in s'.mem.entries && Sound(s'.log.loaded, id)
        ensures HeldOk(retry, s'.log, s'.mem.entries, s'.mem.pc, id)
      {
        assert HeldOk(retry, s.log, s.mem.entries, s.mem.pc, id);
      }
      forall id | Sound(s'.log.loaded, id) ensures s'.log.tried[id] <= Allowance(retry, s'.log.loaded, id) {
        if id == e.id {
          assert HeldOk(retry, s.log, s.mem.entries, s.mem.pc, id);
        }
      }
    }
    forall id | Coming(s'.mem, id) ensures NotTried(s'.log, id) {
      assert Coming(s.mem, id) && id != e.id;
    }
  }

  lemma HeldIsNotComing(s: Sys, id: Id)
    requires Shape(s) && id in s.mem.entries
    ensures !Coming(s.mem, id) && id in s.log.orig
  {
  }

  lemma PickAttempts(s: Sys, a: WorkerAct)
    requires Shape(s) && AttemptsOk(s) && s.phase.Up? && s.mem.pc == Picking && WorkerTalk(s, a).Some?
    ensures AttemptsOk(WorkerTalk(s, a).value)
  {
    if a.Pick? && a.resolution.Some? {
      AttemptCounts(s, a.entry, a.resolution.value);
    } else {
      WorkerKeeps(s, WorkerTalk(s, a).value);
    }
  }

  lemma AcceptedAttempts(s: Sys, e: QueueEntry, target: Target, k: nat)
    requires AttemptsOk(s) && s.phase.Up? && s.mem.pc == Talking(e, target, k) && k < |ChunksOf(e, target)|
    ensures AttemptsOk(ChunkAccepted(s, e, target, k))
  {
    WorkerKeeps(s, ChunkAccepted(s, e, target, k));
  }

  /** A failed attempt spends a unit of the budget or ends the entry. */
  lemma RejectedHeld(s: Sys, e: QueueEntry, target: Target, k: nat, error: SendError)
    requires Shape(s) && AttemptsOk(s) && s.phase.Up? && s.mem.pc == Talking(e, target, k) && k < |ChunksOf(e, target)|
    ensures AllHeldOk(s.config.retry, s.log, s.mem.entries, ChunkRejected(s, e, target, k, error).mem.pc)
  {
    var s' := ChunkRejected(s, e, target, k, error);
    var retry := s.config.retry;
    RejectEffect(s, e, target, k, error);
    if retry.maxAttempts > 0 {
      forall id | id in s.mem.entries && Sound(s.log.loaded, id)
        ensures HeldOk(retry, s.log, s.mem.entries, s'.mem.pc, id)
      {
        assert HeldOk(retry, s.log, s.mem.entries, s.mem.pc, id);
        if error.IsRetryable() {
          FailureSpendsBudget(retry, e, error, s.clock);
        }
      }
    }
  }

  lemma RejectedAttempts(s: Sys, e: QueueEntry, target: Target, k: nat, error: SendError)
    requires Shape(s) && AttemptsOk(s) && s.phase.Up? && s.mem.pc == Talking(e, target, k) && k < |ChunksOf(e, target)|
    ensures AttemptsOk(ChunkRejected(s, e, target, k, error))
  {
    RejectedHeld(s, e, target, k, error);
    RejectEffect(s, e, target, k, error);
    WorkerKeeps(s, ChunkRejected(s, e, target, k, error));
  }

  lemma TalkAttempts(s: Sys, a: WorkerAct)
    requires Shape(s) && AttemptsOk(s) && s.phase.Up? && WorkerTalk(s, a).Some?
    ensures AttemptsOk(WorkerTalk(s, a).value)
  {
    match s.mem.pc {
      case Picking => PickAttempts(s, a);
      case Talking(e, target, k) =>
        if k < |ChunksOf(e, target)| {
          if a.reply.Accepted? {
            AcceptedAttempts(s, e, target, k);
          } else {
            RejectedAttempts(s, e, target, k, a.reply.error);
          }
        } else {
          LetGoAttempts(s, e.id);
        }
      case Unlinking(id) => CleanUpAttempts(s, a);
      case Counting(id) => CleanUpAttempts(s, a);
    }
  }

  lemma LetGoAttempts(s: Sys, id: Id)
    requires AttemptsOk(s) && s.phase.Up? && s.mem.pc.Talking? && s.mem.pc.e.id == id
    ensures AttemptsOk(s.(mem := s.mem.(entries := s.mem.entries - {id}, pc := Unlinking(id))))
  {
    WorkerKeeps(s, s.(mem := s.mem.(entries := s.mem.entries - {id}, pc := Unlinking(id))));
  }

  lemma FreeKeeps(s: Sys, s': Sys)
    requires AttemptsOk(s) && s.phase.Up? && s'.phase == s.phase && s'.config == s.config
    requires SameAttempts(s.log, s'.log) && s'.mem.handlers == s.mem.handlers && s'.mem.channel == s.mem.channel
    requires s'.mem.entries == s.mem.entries && HandsFree(s.mem.pc) && HandsFree(s'.mem.pc)
    ensures AttemptsOk(s')
  {
    WorkerKeeps(s, s');
  }

  lemma CleanUpAttempts(s: Sys, a: WorkerAct)
    requires AttemptsOk(s) && s.phase.Up? && (s.mem.pc.Unlinking? || s.mem.pc.Counting?) && WorkerTalk(s, a).Some?
    ensures AttemptsOk(WorkerTalk(s, a).value)
  {
    ForgetEffect(s, a);
    FreeKeeps(s, WorkerTalk(s, a).value);
  }

  lemma BuryAttempts(s: Sys, ok: bool)
    requires AttemptsOk(s) && s.phase.Up? && WorkerBury(s, ok).Some?
    ensures AttemptsOk(WorkerBury(s, ok).value)
  {
    BuryEffect(s, ok);
    WorkerKeeps(s, WorkerBury(s, ok).value);
  }

  lemma RetryAttempts(s: Sys, ok: bool)
    requires Shape(s) && AttemptsOk(s) && s.phase.Up? && WorkerRetry(s, ok).Some?
    ensures AttemptsOk(WorkerRetry(s, ok).value)
  {
    RetryEffect(s, ok);
    var s' := WorkerRetry(s, ok).value;
    forall id | id in s'.mem.entries && Sound(s.log.loaded, id) && s.config.retry.maxAttempts > 0
      ensures HeldOk(s.config.retry, s.log, s'.mem.entries, s'.mem.pc, id)
    {
      assert HeldOk(s.config.retry, s.log, s.mem.entries, s.mem.pc, id);
    }
    WorkerKeeps(s, s');
  }

  // ----- the process -----

  lemma ProcessAttempts(s: Sys, a: ProcessAct)
    requires Shape(s) && AttemptsOk(s) && ProcessStep(s, a).Some?
    ensures AttemptsOk(ProcessStep(s, a).value)
  {
    var s' := ProcessStep(s, a).value;
    if a.Start? {
      assert forall id :: !InChannel([], id);
      assert forall id :: !Coming(s'.mem, id);
    } else if s'.phase.Up? {
      KeepAttempts(s, s');
    }
  }

  lemma StepAttempts(s: Sys, a: Action)
    requires Shape(s) && AttemptsOk(s) && Step(s, a).Some?
    ensures AttemptsOk(Step(s, a).value)
  {
    match a {
      case OfHandler(c, ha) => HandlerAttempts(s, c, ha);
      case OfProcess(pa) => ProcessAttempts(s, pa);
      case OfWorker(wa) =>
        if Burying(s.mem.pc) {
          BuryAttempts(s, wa.ok);
        } else if Retrying(s.mem.pc) {
          RetryAttempts(s, wa.ok);
        } else if Speaking(s.mem.pc) {
          TalkAttempts(s, wa);
        } else {
          TakeAttempts(s, wa);
        }
    }
  }
}
