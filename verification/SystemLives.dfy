/**
  How often a message can be delivered. Within one process lifetime every id the worker
  holds ends at most once, delivered or given up; only a restart that still finds the
  file can bring it back.
*/
module SystemLives {
  import opened Messages
  import opened RetryPolicy
  import opened System
  import opened SystemShape
  import opened SystemDurable
  import opened SystemEffects

  /** The held id whose outcome is decided; the worker only has to clean up. */
  ghost function EndingId(pc: WorkerPc): Option<Id> {
    if (pc.Talking? && pc.k == |ChunksOf(pc.e, pc.target)|) || Burying(pc) then Some(pc.e.id) else None
  }

  /** `id` can still be attempted in this process lifetime. */
  ghost predicate Active(m: Mem, id: Id) {
    Owned(m.handlers, id) || InChannel(m.channel, id) || (id in m.entries && EndingId(m.pc) != Some(id))
  }

  ghost predicate WithinLives(log: Log, id: Id, spent: int) {
    id in log.born && Deliveries(log.receipts, id) + spent <= log.starts - log.born[id] + 1
  }

  /** Nothing has happened to `id` in this lifetime, and the lives before allow one more delivery. */
  ghost predicate Untouched(log: Log, id: Id) {
    WithinLives(log, id, 1) && log.ended[id] == 0
  }

  ghost predicate LogClosed(log: Log) {
    && (forall id :: id in log.orig ==> WithinLives(log, id, 0))
    && (forall id :: Deliveries(log.receipts, id) > 0 ==> id in log.orig)
    && (forall id :: log.ended[id] > 0 ==> id in log.orig)
    && (forall id :: log.ended[id] <= 1)
  }

  ghost predicate LivesOk(s: Sys) {
    && LogClosed(s.log)
    && (s.phase.Up? ==> forall id :: Active(s.mem, id) ==> Untouched(s.log, id))
    && (s.phase.Booting? ==> forall id :: id in s.log.orig ==> Untouched(s.log, id))
  }

  /** What this file reads of the log is unchanged. */
  predicate SameLives(log: Log, log': Log) {
    && log'.orig == log.orig && log'.born == log.born && log'.starts == log.starts
    && log'.receipts == log.receipts && log'.ended == log.ended
  }

  /** Nobody becomes active, and the log says the same about lives. */
  lemma QuietLives(s: Sys, s': Sys)
    requires LivesOk(s) && s.phase.Up? && s'.phase.Up? && SameLives(s.log, s'.log)
    requires forall id :: Active(s'.mem, id) ==> Active(s.mem, id)
    ensures LivesOk(s')
  {
  }

  /** The worker holds the same ids, and a decided outcome stays decided. */
  lemma KeepLives(s: Sys, s': Sys)
    requires LivesOk(s) && s.phase.Up? && s'.phase.Up? && SameLives(s.log, s'.log)
    requires s'.mem.handlers == s.mem.handlers && s'.mem.channel == s.mem.channel
    requires s'.mem.entries.Keys == s.mem.entries.Keys
    requires EndingId(s.mem.pc).Some? ==> EndingId(s'.mem.pc) == EndingId(s.mem.pc)
    ensures LivesOk(s')
  {
    QuietLives(s, s');
  }

  /** The worker lets go of the id whose outcome is decided. */
  lemma DropLives(s: Sys, s': Sys, x: Id)
    requires LivesOk(s) && s.phase.Up? && s'.phase.Up? && SameLives(s.log, s'.log)
    requires s'.mem.handlers == s.mem.handlers && s'.mem.channel == s.mem.channel
    requires s'.mem.entries == s.mem.entries - {x} && EndingId(s.mem.pc) == Some(x)
    ensures LivesOk(s')
  {
    QuietLives(s, s');
  }

  lemma HandlerLives(s: Sys, c: Conn, a: HandlerAct)
    requires Shape(s) && LivesOk(s) && HandlerStep(s, c, a).Some?
    ensures LivesOk(HandlerStep(s, c, a).value)
  {
    var s' := HandlerStep(s, c, a).value;
    HandlerEffect(s, c, a);
    forall id | Active(s'.mem, id) ensures Active(s.mem, id) || (a.Receive? && id == a.e.id) {
      if Coming(s'.mem, id) {
        HandlerNewcomers(s, c, a, id);
      }
    }
    if a.Receive? {
      ReceiveLives(s, s', a.e);
    } else {
      QuietLives(s, s');
    }
  }

  lemma ReceiveLives(s: Sys, s': Sys, e: QueueEntry)
    requires LivesOk(s) && s.phase.Up? && s'.phase == s.phase && IsNew(s, e)
    requires s'.log.orig == s.log.orig[e.id := e] && s'.log.born == s.log.born[e.id := s.log.starts]
    requires s'.log.starts == s.log.starts && s'.log.receipts == s.log.receipts && s'.log.ended == s.log.ended
    requires forall id :: Active(s'.mem, id) ==> Active(s.mem, id) || id == e.id
    ensures LivesOk(s')
  {
    assert Deliveries(s.log.receipts, e.id) == 0 && s.log.ended[e.id] == 0;
    forall id | Active(s'.mem, id) ensures Untouched(s'.log, id) {
      assert id != e.id ==> Untouched(s.log, id);
    }
    forall id | id in s'.log.orig ensures WithinLives(s'.log, id, 0) {
      assert id != e.id ==> WithinLives(s.log, id, 0);
    }
  }

  lemma TakeLives(s: Sys, a: WorkerAct)
    requires Shape(s) && LivesOk(s) && s.phase.Up? && WorkerTake(s, a).Some?
    ensures LivesOk(WorkerTake(s, a).value)
  {
    var pc, s' := s.mem.pc, WorkerTake(s, a).value;
    TakeEffect(s, a);
    if Inserts(s, a) {
      InsertLives(s, pc.Draining?);
    } else if pc.Waiting? && a.Stop? {
      QuietLives(s, s');
    } else {
      KeepLives(s, s');
    }
  }

  lemma InsertLives(s: Sys, draining: bool)
    requires LivesOk(s) && s.phase.Up? && s.mem.channel != [] && (s.mem.pc == Draining || s.mem.pc == Waiting)
    ensures LivesOk(Insert(s, draining))
  {
  }

  /** The outcome of one held id is recorded. */
  lemma EndLives(s: Sys, s': Sys, x: Id, delivered: nat)
    requires Shape(s) && LivesOk(s) && s.phase.Up? && s'.phase.Up? && delivered <= 1
    requires x in s.mem.entries && EndingId(s.mem.pc) == None && EndingId(s'.mem.pc) == Some(x)
    requires s'.mem == s.mem.(pc := s'.mem.pc)
    requires s'.log.orig == s.log.orig && s'.log.born == s.log.born && s'.log.starts == s.log.starts
    requires s'.log.ended == s.log.ended + multiset{x}
    requires forall id ::
               Deliveries(s'.log.receipts, id) == Deliveries(s.log.receipts, id) + if id == x then delivered else 0
    ensures LivesOk(s')
  {
    assert Active(s.mem, x) && Untouched(s.log, x);
    HeldAlone(s, x);
    forall id | Active(s'.mem, id) ensures Untouched(s'.log, id) {
      assert id != x && Active(s.mem, id) && Untouched(s.log, id);
    }
    forall id | id in s.log.orig ensures WithinLives(s'.log, id, 0) {
      assert WithinLives(s.log, id, 0);
    }
  }

  lemma AbandonLives(s: Sys, s1: Sys, dead: QueueEntry)
    requires Shape(s) && LivesOk(s) && s.phase.Up? && dead.id in s.mem.entries
    requires s.mem.pc.Picking? || (s.mem.pc.Talking? && s.mem.pc.k < |ChunksOf(s.mem.pc.e, s.mem.pc.target)|)
    requires s1 == s.(log := s.log.(wire := s1.log.wire))
    ensures LivesOk(Abandon(s1, dead))
  {
    EndLives(s, Abandon(s1, dead), dead.id, 0);
  }

  lemma AcceptedLives(s: Sys, e: QueueEntry, target: Target, k: nat)
    requires Shape(s) && LivesOk(s) && s.phase.Up? && s.mem.pc == Talking(e, target, k) && k < |ChunksOf(e, target)|
    ensures LivesOk(ChunkAccepted(s, e, target, k))
  {
    var s' := ChunkAccepted(s, e, target, k);
    if k + 1 < |ChunksOf(e, target)| {
      KeepLives(s, s');
    } else {
      forall id
        ensures Deliveries(s'.log.receipts, id) == Deliveries(s.log.receipts, id) + if id == e.id then 1 else 0
      {
        DeliveriesPush(s.log.receipts, Receipt(e, target, |s'.log.wire|), id);
      }
      EndLives(s, s', e.id, 1);
    }
  }

  lemma RejectedLives(s: Sys, e: QueueEntry, target: Target, k: nat, error: SendError)
    requires Shape(s) && LivesOk(s) && s.phase.Up? && s.mem.pc == Talking(e, target, k) && k < |ChunksOf(e, target)|
    ensures LivesOk(ChunkRejected(s, e, target, k, error))
  {
    var s1 := Called(s, ApiCall(e.id, ChunksOf(e, target)[k], false));
    match Decide(s.config.retry, e, error, s.clock) {
      case GiveUp(dead) => AbandonLives(s, s1, dead);
      case Retry(next, delay) => KeepLives(s, Reschedule(s1, next, delay));
    }
  }

  lemma TalkLives(s: Sys, a: WorkerAct)
    requires Shape(s) && LivesOk(s) && s.phase.Up? && WorkerTalk(s, a).Some?
    ensures LivesOk(WorkerTalk(s, a).value)
  {
    match s.mem.pc {
      case Picking => PickLives(s, a);
      case Talking(e, target, k) =>
        if k < |ChunksOf(e, target)| {
          if a.reply.Accepted? {
            AcceptedLives(s, e, target, k);
          } else {
            RejectedLives(s, e, target, k, a.reply.error);
          }
        } else {
          CleanUpLives(s, a);
        }
      case Unlinking(_) => CleanUpLives(s, a);
      case Counting(_) => CleanUpLives(s, a);
    }
  }

  /** Forgetting a delivered entry. */
  lemma CleanUpLives(s: Sys, a: WorkerAct)
    requires Shape(s) && LivesOk(s) && s.phase.Up? && !s.mem.pc.Picking? && WorkerTalk(s, a).Some? && !a.Answer?
    ensures LivesOk(WorkerTalk(s, a).value)
  {
    ForgetEffect(s, a);
    if s.mem.pc.Talking? {
      DropLives(s, WorkerTalk(s, a).value, s.mem.pc.e.id);
    } else {
      KeepLives(s, WorkerTalk(s, a).value);
    }
  }

  lemma PickLives(s: Sys, a: WorkerAct)
    requires Shape(s) && LivesOk(s) && s.phase.Up? && s.mem.pc == Picking && WorkerTalk(s, a).Some?
    ensures LivesOk(WorkerTalk(s, a).value)
  {
    if a.Pick? && a.resolution.None? {
      AbandonLives(s, s, WorkerLoop.WithReason(a.entry, Unresolvable(a.detail)));
    } else {
      KeepLives(s, WorkerTalk(s, a).value);
    }
  }

  lemma BuryLives(s: Sys, ok: bool)
    requires LivesOk(s) && s.phase.Up? && WorkerBury(s, ok).Some?
    ensures LivesOk(WorkerBury(s, ok).value)
  {
    if s.mem.pc.Dropping? {
      DropLives(s, WorkerBury(s, ok).value, s.mem.pc.e.id);
    } else {
      KeepLives(s, WorkerBury(s, ok).value);
    }
  }

  lemma RetryLives(s: Sys, ok: bool)
    requires Shape(s) && LivesOk(s) && s.phase.Up? && WorkerRetry(s, ok).Some?
    ensures LivesOk(WorkerRetry(s, ok).value)
  {
    assert s.mem.entries[s.mem.pc.e.id := s.mem.pc.e].Keys == s.mem.entries.Keys;
    KeepLives(s, WorkerRetry(s, ok).value);
  }

  lemma ProcessLives(s: Sys, a: ProcessAct)
    requires Shape(s) && LivesOk(s) && ProcessStep(s, a).Some?
    ensures LivesOk(ProcessStep(s, a).value)
  {
    var s' := ProcessStep(s, a).value;
    forall id | id in s.log.orig ensures WithinLives(s'.log, id, 0) && (s'.phase.Booting? ==> Untouched(s'.log, id)) {
      assert WithinLives(s.log, id, 0);
      assert s.phase.Booting? ==> Untouched(s.log, id);
    }
    forall id | s'.phase.Up? && Active(s'.mem, id) ensures Untouched(s'.log, id) {
      if a.Start? {
        assert id in s.mem.entries && Untouched(s.log, id);
      } else {
        assert Active(s.mem, id) && Untouched(s.log, id);
      }
    }
  }

  lemma StepLives(s: Sys, a: Action)
    requires Shape(s) && LivesOk(s) && Step(s, a).Some?
    ensures LivesOk(Step(s, a).value)
  {
    match a {
      case OfHandler(c, ha) => HandlerLives(s, c, ha);
      case OfProcess(pa) => ProcessLives(s, pa);
      case OfWorker(wa) =>
        if Burying(s.mem.pc) {
          BuryLives(s, wa.ok);
        } else if Retrying(s.mem.pc) {
          RetryLives(s, wa.ok);
        } else if Speaking(s.mem.pc) {
          TalkLives(s, wa);
        } else {
          TakeLives(s, wa);
        }
    }
  }
}
