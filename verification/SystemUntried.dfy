/**
  Accepted but not yet published by the worker: an id a handler owns, in the channel, or
  just inserted has had no outcome of any kind in any process lifetime.
*/
module SystemUntried {
  import opened Messages
  import opened QueueStore
  import opened System
  import opened SystemShape
  import opened SystemDurable
  import opened SystemEffects
  import opened SystemLives

  /** `id` has not got as far as the worker's published count. */
  ghost predicate Early(m: Mem, id: Id) {
    Owned(m.handlers, id) || InChannel(m.channel, id) || (m.pc.Inserted? && m.pc.id == id)
  }

  /** Neither delivered nor set aside nor unreadable at a start. */
  ghost predicate NoOutcome(log: Log, id: Id) {
    Deliveries(log.receipts, id) == 0 && id !in log.givenUp && id !in log.skipped
  }

  ghost predicate UntriedOk(s: Sys) {
    && s.log.givenUp <= s.log.orig.Keys && s.log.skipped <= s.log.orig.Keys
    && (forall id :: Early(s.mem, id) ==> NoOutcome(s.log, id))
    && (s.phase.Booting? ==> forall id :: Final(id) in s.phase.todo ==> id in s.log.orig)
  }

  /** What this file reads of the log is unchanged. */
  predicate SameOutcomes(log: Log, log': Log) {
    && log'.orig == log.orig && log'.receipts == log.receipts && log'.givenUp == log.givenUp
    && log'.skipped == log.skipped
  }

  /** Nobody becomes early. */
  lemma QuietUntried(s: Sys, s': Sys)
    requires UntriedOk(s) && s.phase.Up? && s'.phase == s.phase && SameOutcomes(s.log, s'.log)
    requires forall id :: Early(s'.mem, id) ==> Early(s.mem, id)
    ensures UntriedOk(s')
  {
  }

  /** The worker moves on without an insertion. */
  lemma MoveUntried(s: Sys, s': Sys)
    requires UntriedOk(s) && s.phase.Up? && s'.phase == s.phase && SameOutcomes(s.log, s'.log)
    requires s'.mem.handlers == s.mem.handlers && s'.mem.channel == s.mem.channel && !s'.mem.pc.Inserted?
    ensures UntriedOk(s')
  {
    QuietUntried(s, s');
  }

  // ----- handlers -----

  lemma HandlerUntried(s: Sys, c: Conn, a: HandlerAct)
    requires Shape(s) && LivesOk(s) && UntriedOk(s) && HandlerStep(s, c, a).Some?
    ensures UntriedOk(HandlerStep(s, c, a).value)
  {
    var s' := HandlerStep(s, c, a).value;
    HandlerEffect(s, c, a);
    forall id | Early(s'.mem, id) ensures NoOutcome(s'.log, id) {
      if Coming(s'.mem, id) {
        HandlerNewcomers(s, c, a, id);
      }
      if a.Receive? && id == a.e.id {
        assert Deliveries(s.log.receipts, id) == 0;
      } else {
        assert Early(s.mem, id) && NoOutcome(s.log, id);
      }
    }
  }

  // ----- the worker -----

  lemma TakeUntried(s: Sys, a: WorkerAct)
    requires UntriedOk(s) && s.phase.Up? && WorkerTake(s, a).Some?
    ensures UntriedOk(WorkerTake(s, a).value)
  {
    TakeEffect(s, a);
    var s' := WorkerTake(s, a).value;
    if Inserts(s, a) {
      forall id | Early(s'.mem, id) ensures Early(s.mem, id) {
        PopMembers(s.mem.channel, id);
      }
      QuietUntried(s, s');
    } else if s.mem.pc.Waiting? && a.Stop? {
      assert forall id :: !InChannel([], id);
      QuietUntried(s, s');
    } else {
      TakeNotInserted(s, a);
      MoveUntried(s, s');
    }
  }

  lemma TakeNotInserted(s: Sys, a: WorkerAct)
    requires WorkerTake(s, a).Some? && !Inserts(s, a)
    ensures !WorkerTake(s, a).value.mem.pc.Inserted?
  {
  }

  /** The outcome of one held id is recorded; nobody early has that id. */
  lemma EndUntried(s: Sys, s': Sys, x: Id)
    requires Shape(s) && UntriedOk(s) && s.phase.Up? && s'.phase == s.phase && x in s.mem.entries
    requires s'.mem == s.mem.(pc := s'.mem.pc) && !s.mem.pc.Inserted? && !s'.mem.pc.Inserted?
    requires s'.log.orig == s.log.orig && s'.log.skipped == s.log.skipped
    requires s'.log.givenUp == s.log.givenUp || s'.log.givenUp == s.log.givenUp + {x}
    requires forall id :: id != x ==> Deliveries(s'.log.receipts, id) == Deliveries(s.log.receipts, id)
    ensures UntriedOk(s')
  {
    HeldAlone(s, x);
    assert x in s.log.orig;
    forall id | Early(s'.mem, id) ensures NoOutcome(s'.log, id) {
      assert id != x && Early(s.mem, id);
    }
  }

  lemma AcceptedUntried(s: Sys, e: QueueEntry, target: Target, k: nat)
    requires Shape(s) && UntriedOk(s) && s.phase.Up? && s.mem.pc == Talking(e, target, k) && k < |ChunksOf(e, target)|
    ensures UntriedOk(ChunkAccepted(s, e, target, k))
  {
    var s' := ChunkAccepted(s, e, target, k);
    forall id | id != e.id ensures Deliveries(s'.log.receipts, id) == Deliveries(s.log.receipts, id) {
      DeliveriesPush(s.log.receipts, Receipt(e, target, |s'.log.wire|), id);
    }
    EndUntried(s, s', e.id);
  }

  lemma RejectedUntried(s: Sys, e: QueueEntry, target: Target, k: nat, error: SendError)
    requires Shape(s) && UntriedOk(s) && s.phase.Up? && s.mem.pc == Talking(e, target, k) && k < |ChunksOf(e, target)|
    ensures UntriedOk(ChunkRejected(s, e, target, k, error))
  {
    EndUntried(s, ChunkRejected(s, e, target, k, error), e.id);
  }

  lemma PickUntried(s: Sys, a: WorkerAct)
    requires Shape(s) && UntriedOk(s) && s.phase.Up? && s.mem.pc == Picking && WorkerTalk(s, a).Some?
    ensures UntriedOk(WorkerTalk(s, a).value)
  {
    match a {
      case Pick(e, Some(target), _) => EndUntried(s, Attempt(s, e, target), e.id);
      case Pick(e, None, detail) =>
        EndUntried(s, Abandon(s, WorkerLoop.WithReason(e, Unresolvable(detail))), e.id);
      case Go(_) => MoveUntried(s, Pc(s, Head));
    }
  }

  lemma TalkUntried(s: Sys, a: WorkerAct)
    requires Shape(s) && UntriedOk(s) && s.phase.Up? && WorkerTalk(s, a).Some?
    ensures UntriedOk(WorkerTalk(s, a).value)
  {
    match s.mem.pc {
      case Picking => PickUntried(s, a);
      case Talking(e, target, k) =>
        if k < |ChunksOf(e, target)| {
          if a.reply.Accepted? {
            AcceptedUntried(s, e, target, k);
          } else {
            RejectedUntried(s, e, target, k, a.reply.error);
          }
        } else {
          MoveUntried(s, WorkerTalk(s, a).value);
        }
      case Unlinking(_) => MoveUntried(s, WorkerTalk(s, a).value);
      case Counting(_) => MoveUntried(s, WorkerTalk(s, a).value);
    }
  }

  lemma BuryUntried(s: Sys, ok: bool)
    requires UntriedOk(s) && s.phase.Up? && WorkerBury(s, ok).Some?
    ensures UntriedOk(WorkerBury(s, ok).value)
  {
    BuryEffect(s, ok);
    MoveUntried(s, WorkerBury(s, ok).value);
  }

  lemma RetryUntried(s: Sys, ok: bool)
    requires UntriedOk(s) && s.phase.Up? && WorkerRetry(s, ok).Some?
    ensures UntriedOk(WorkerRetry(s, ok).value)
  {
    RetryEffect(s, ok);
    MoveUntried(s, WorkerRetry(s, ok).value);
  }

  // ----- the process -----

  lemma ProcessUntried(s: Sys, a: ProcessAct)
    requires Shape(s) && UntriedOk(s) && ProcessStep(s, a).Some?
    ensures UntriedOk(ProcessStep(s, a).value)
  {
    var s' := ProcessStep(s, a).value;
    assert forall id :: !InChannel([], id);
    if s'.mem.handlers == map[] && s'.mem.channel == [] && !s'.mem.pc.Inserted? {
      assert forall id :: !Early(s'.mem, id);
    }
  }

  lemma StepUntried(s: Sys, a: Action)
    requires Shape(s) && LivesOk(s) && UntriedOk(s) && Step(s, a).Some?
    ensures UntriedOk(Step(s, a).value)
  {
    match a {
      case OfHandler(c, ha) => HandlerUntried(s, c, ha);
      case OfProcess(pa) => ProcessUntried(s, pa);
      case OfWorker(wa) =>
        if Burying(s.mem.pc) {
          BuryUntried(s, wa.ok);
        } else if Retrying(s.mem.pc) {
          RetryUntried(s, wa.ok);
        } else if Speaking(s.mem.pc) {
          TalkUntried(s, wa);
        } else {
          TakeUntried(s, wa);
        }
    }
  }
}
