/**
  How often a message can be attempted over all process lifetimes. The counter stored
  with an entry lags the attempts made by at most one per restart, for the attempt the
  end of the process cut off or whose outcome it did not record, and one per retry state
  that failed to reach the disk.
*/
module SystemTally {
  import opened Messages
  import opened QueueStore
  import opened RetryPolicy
  import opened System
  import opened SystemShape
  import opened SystemEffects
  import opened SystemLives
  import opened SystemAttempts

  /** Attempts on `id` that its counter need not show. */
  function Pardon(log: Log, id: Id): int {
    log.starts - (if id in log.born then log.born[id] else 0) + log.lost[id]
  }

  /** The counter `attempts` is below every limit, and shows all attempts but those pardoned and `spare` more. */
  predicate Shows(log: Log, id: Id, attempts: nat, spare: nat) {
    attempts < log.limit && log.everTried[id] <= attempts + Pardon(log, id) + spare
  }

  /** The worker is trying `id`, or has yet to store the retry state. */
  predicate Unstored(pc: WorkerPc, id: Id) {
    (pc.Talking? || pc.RetryOpening? || pc.RetryWriting? || pc.RetryRenaming?) && pc.e.id == id
  }

  /** This lifetime may hold one attempt on `id` that the queue file does not show. */
  predicate MayLag(phase: Phase, pc: WorkerPc, log: Log, id: Id) {
    phase.Down? || Unstored(pc, id) || log.ended[id] > 0
  }

  predicate FileShows(s: Sys, id: Id)
    requires id in s.disk.queue
  {
    s.disk.queue[id].Complete? ==>
      Shows(s.log, id, s.disk.queue[id].entry.attempts, if MayLag(s.phase, s.mem.pc, s.log, id) then 1 else 0)
  }

  /** The retry state of a held entry, the one being stored if there is one. */
  function Current(m: Mem, id: Id): QueueEntry
    requires id in m.entries
  {
    if Retrying(m.pc) && m.pc.e.id == id then m.pc.e else m.entries[id]
  }

  predicate HeldShows(s: Sys, id: Id)
    requires id in s.mem.entries
  {
    s.log.ended[id] > 0
    || Shows(s.log, id, Current(s.mem, id).attempts, if s.mem.pc.Talking? && s.mem.pc.e.id == id then 1 else 0)
  }

  /** A decided outcome is on record. */
  ghost predicate DecidedIsRecorded(pc: WorkerPc, log: Log) {
    EndingId(pc).Some? ==> log.ended[EndingId(pc).value] > 0
  }

  ghost predicate LimitOk(s: Sys) {
    && (!s.phase.Down? ==> 1 <= s.config.retry.maxAttempts <= s.log.limit)
    && forall id :: id in s.log.born ==> s.log.born[id] <= s.log.starts
  }

  ghost predicate WithinTotal(log: Log) {
    forall id :: id in log.orig ==> log.everTried[id] <= log.limit + Pardon(log, id)
  }

  ghost predicate Tallied(s: Sys) {
    && LimitOk(s)
    && DecidedIsRecorded(s.mem.pc, s.log)
    && (forall id :: id in s.disk.queue ==> FileShows(s, id))
    && (forall id :: id in s.mem.entries ==> HeldShows(s, id))
    && WithinTotal(s.log)
  }

  ghost predicate TallyOk(s: Sys) {
    s.log.limited ==> Tallied(s)
  }

  /** What this file reads of the log is unchanged. */
  predicate SameTally(log: Log, log': Log) {
    && log'.orig == log.orig && log'.born == log.born && log'.starts == log.starts && log'.lost == log.lost
    && log'.everTried == log.everTried && log'.ended == log.ended && log'.limit == log.limit
    && log'.limited == log.limited
  }

  /** What this invariant rests on. */
  ghost predicate Ground(s: Sys) {
    Shape(s) && LivesOk(s) && AttemptsOk(s)
  }

  /** A held id whose outcome is open has had none in this lifetime, so its counter shows its attempts. */
  lemma OpenShows(s: Sys, id: Id)
    requires Ground(s) && Tallied(s) && s.phase.Up? && id in s.mem.entries && EndingId(s.mem.pc) != Some(id)
    ensures s.log.ended[id] == 0
    ensures Shows(s.log, id, Current(s.mem, id).attempts, if s.mem.pc.Talking? && s.mem.pc.e.id == id then 1 else 0)
  {
    assert Active(s.mem, id) && Untouched(s.log, id);
    assert HeldShows(s, id);
  }

  // ----- handlers -----

  /** The file of an entry on its way in shows no attempt, and there was none. */
  lemma NewcomerShows(s: Sys, c: Conn)
    requires Ground(s) && Tallied(s) && s.phase.Up? && c in s.mem.handlers && Owns(s.mem.handlers[c])
    ensures var e := s.mem.handlers[c].e; e.attempts == 0 && Shows(s.log, e.id, 0, 0)
  {
    assert HandlerOk(s.mem.handlers[c], s.log.orig);
    assert Owned(s.mem.handlers, s.mem.handlers[c].e.id);
    assert Coming(s.mem, s.mem.handlers[c].e.id);
  }

  lemma ProceedTally(s: Sys, c: Conn, ok: bool)
    requires Ground(s) && TallyOk(s) && HandlerStep(s, c, Proceed(ok)).Some?
    ensures TallyOk(HandlerStep(s, c, Proceed(ok)).value)
  {
    var s', h := HandlerStep(s, c, Proceed(ok)).value, s.mem.handlers[c];
    ProceedEffect(s, c, ok);
    if s.log.limited {
      if Owns(h) {
        NewcomerShows(s, c);
      }
      forall id | id in s'.disk.queue ensures FileShows(s', id) {
        if id in s.disk.queue && s'.disk.queue[id] == s.disk.queue[id] {
          assert FileShows(s, id);
        } else {
          assert h.Renaming? && s.disk.temps[h.e.id] == Complete(h.e);
        }
      }
      forall id | id in s'.mem.entries ensures HeldShows(s', id) {
        assert HeldShows(s, id);
      }
    }
  }

  /** A fresh id has neither file nor entry. */
  lemma ReceiveTally(s: Sys, c: Conn, e: QueueEntry, request: NotifyRequest)
    requires Ground(s) && TallyOk(s) && HandlerStep(s, c, Receive(e, request)).Some?
    ensures TallyOk(HandlerStep(s, c, Receive(e, request)).value)
  {
    var s' := HandlerStep(s, c, Receive(e, request)).value;
    HandlerEffect(s, c, Receive(e, request));
    assert s.log.everTried[e.id] == 0;
    if s.log.limited {
      forall id | id in s'.disk.queue ensures FileShows(s', id) {
        assert id in s.log.orig && FileShows(s, id);
      }
      forall id | id in s'.mem.entries ensures HeldShows(s', id) {
        assert id in s.log.orig && HeldShows(s, id);
      }
      assert s'.log == Asked(s.log, e, request);
      BornNow(s, s', e);
    }
  }

  lemma BornNow(s: Sys, s': Sys, e: QueueEntry)
    requires Tallied(s) && e.id !in s.log.orig && s.log.everTried[e.id] == 0 && s'.config == s.config && !s.phase.Down?
    requires exists request :: s'.log == Asked(s.log, e, request)
    requires s'.phase == s.phase
    ensures WithinTotal(s'.log) && LimitOk(s')
  {
  }

  lemma HandlerTally(s: Sys, c: Conn, a: HandlerAct)
    requires Ground(s) && TallyOk(s) && HandlerStep(s, c, a).Some?
    ensures TallyOk(HandlerStep(s, c, a).value)
  {
    match a {
      case Proceed(ok) => ProceedTally(s, c, ok);
      case Receive(e, request) => ReceiveTally(s, c, e, request);
      case Connect => QuietTally(s, HandlerStep(s, c, a).value);
      case Disconnect => QuietTally(s, HandlerStep(s, c, a).value);
    }
  }

  // ----- the worker -----

  /** Files and entries stay or go; the worker's hands hold nothing new. */
  lemma QuietTally(s: Sys, s': Sys)
    requires TallyOk(s) && s.phase.Up? && s'.phase == s.phase && s'.config == s.config && SameTally(s.log, s'.log)
    requires forall id :: id in s'.disk.queue ==> id in s.disk.queue && s'.disk.queue[id] == s.disk.queue[id]
    requires forall id :: id in s'.mem.entries ==> id in s.mem.entries && s'.mem.entries[id] == s.mem.entries[id]
    requires s.log.limited ==> SamePlace(s.mem.pc, s'.mem.pc, s.log)
    ensures TallyOk(s')
  {
    if s.log.limited {
      forall id | id in s'.disk.queue ensures FileShows(s', id) {
        assert FileShows(s, id);
      }
      forall id | id in s'.mem.entries ensures HeldShows(s', id) {
        assert HeldShows(s, id);
      }
    }
  }

  /** The program counter means the same for the tally: same conversation, same retry, or neither. */
  ghost predicate SamePlace(pc: WorkerPc, pc': WorkerPc, log: Log) {
    if Retrying(pc') then Retrying(pc) && pc.e == pc'.e && pc.Reinserting? == pc'.Reinserting?
    else if pc'.Talking? then pc.Talking? && pc.e == pc'.e && DecidedIsRecorded(pc', log)
    else
      && !Retrying(pc) && DecidedIsRecorded(pc', log)
      && (pc.Talking? ==> log.ended[pc.e.id] > 0)
  }

  lemma InsertTally(s: Sys, draining: bool)
    requires Ground(s) && TallyOk(s) && s.phase.Up? && s.mem.channel != [] && HandsFree(s.mem.pc)
    ensures TallyOk(Insert(s, draining))
  {
    var s', e := Insert(s, draining), s.mem.channel[0];
    assert Coming(s.mem, e.id) by {
      PopMembers(s.mem.channel, e.id);
    }
    assert e.attempts == 0 && NotTried(s.log, e.id);
    if s.log.limited {
      forall id | id in s'.disk.queue ensures FileShows(s', id) {
        assert FileShows(s, id);
      }
      forall id | id in s'.mem.entries ensures HeldShows(s', id) {
        assert id != e.id ==> HeldShows(s, id);
      }
    }
  }

  lemma TakeTally(s: Sys, a: WorkerAct)
    requires Ground(s) && TallyOk(s) && s.phase.Up? && WorkerTake(s, a).Some?
    ensures TallyOk(WorkerTake(s, a).value)
  {
    TakeEffect(s, a);
    TakesFree(s, a);
    if Inserts(s, a) {
      InsertTally(s, s.mem.pc.Draining?);
    } else {
      QuietTally(s, WorkerTake(s, a).value);
    }
  }

  /** An id in nobody's hands, without an outcome yet, is attempted once more. */
  lemma AttemptTally(s: Sys, e: QueueEntry, target: Target)
    requires Ground(s) && TallyOk(s) && s.phase.Up? && s.mem.pc == Picking && 0 < |ChunksOf(e, target)|
    requires e.id in s.mem.entries && s.mem.entries[e.id] == e
    ensures TallyOk(Attempt(s, e, target))
  {
    if s.log.limited {
      PickedShows(s, e);
      AttemptTallied(s, e, target);
    }
  }

  lemma PickedShows(s: Sys, e: QueueEntry)
    requires Ground(s) && Tallied(s) && s.phase.Up? && s.mem.pc == Picking
    requires e.id in s.mem.entries && s.mem.entries[e.id] == e
    ensures s.log.ended[e.id] == 0 && Shows(s.log, e.id, e.attempts, 0)
  {
    OpenShows(s, e.id);
  }

  lemma AttemptTallied(s: Sys, e: QueueEntry, target: Target)
    requires Tallied(s) && s.phase.Up? && s.mem.pc == Picking && 0 < |ChunksOf(e, target)|
    requires e.id in s.mem.entries && s.mem.entries[e.id] == e
    requires s.log.ended[e.id] == 0 && Shows(s.log, e.id, e.attempts, 0)
    ensures Tallied(Attempt(s, e, target))
  {
    var s' := Attempt(s, e, target);
    forall id | id in s'.disk.queue ensures FileShows(s', id) {
      assert FileShows(s, id);
    }
    forall id | id in s'.mem.entries ensures HeldShows(s', id) {
      assert HeldShows(s, id);
    }
  }

  /** The outcome of a held id is recorded. */
  lemma EndTally(s: Sys, s': Sys, x: Id)
    requires TallyOk(s) && s.phase.Up? && s'.phase == s.phase && s'.config == s.config && s'.disk == s.disk
    requires s'.mem == s.mem.(pc := s'.mem.pc) && EndingId(s'.mem.pc) == Some(x) && !Retrying(s.mem.pc)
    requires s.mem.pc.Talking? ==> s.mem.pc.e.id == x
    requires SameTally(s.log.(ended := s.log.ended + multiset{x}), s'.log)
    ensures TallyOk(s')
  {
    if s.log.limited {
      forall id | id in s'.disk.queue ensures FileShows(s', id) {
        assert FileShows(s, id);
      }
      forall id | id in s'.mem.entries ensures HeldShows(s', id) {
        assert HeldShows(s, id);
      }
    }
  }

  lemma AcceptedTally(s: Sys, e: QueueEntry, target: Target, k: nat)
    requires TallyOk(s) && s.phase.Up? && s.mem.pc == Talking(e, target, k) && k < |ChunksOf(e, target)|
    ensures TallyOk(ChunkAccepted(s, e, target, k))
  {
    if k + 1 < |ChunksOf(e, target)| {
      QuietTally(s, ChunkAccepted(s, e, target, k));
    } else {
      EndTally(s, ChunkAccepted(s, e, target, k), e.id);
    }
  }

  lemma RejectedTally(s: Sys, e: QueueEntry, target: Target, k: nat, error: SendError)
    requires Ground(s) && TallyOk(s) && s.phase.Up?
    requires s.mem.pc == Talking(e, target, k) && k < |ChunksOf(e, target)|
    ensures TallyOk(ChunkRejected(s, e, target, k, error))
  {
    match Decide(s.config.retry, e, error, s.clock) {
      case GiveUp(dead) => EndTally(s, ChunkRejected(s, e, target, k, error), e.id);
      case Retry(next, delay) =>
        RescheduleTally(s, Called(s, ApiCall(e.id, ChunksOf(e, target)[k], false)), e, next, delay, error);
    }
  }

  /** The failed attempt is counted in memory; the file does not show it yet. */
  lemma RescheduleTally(s: Sys, s1: Sys, e: QueueEntry, next: QueueEntry, delay: u64, error: SendError)
    requires Ground(s) && TallyOk(s) && s.phase.Up? && s.mem.pc.Talking? && s.mem.pc.e == e
    requires s1 == s.(log := s.log.(wire := s1.log.wire))
    requires s.mem.pc.k < |ChunksOf(e, s.mem.pc.target)|
    requires Decide(s.config.retry, e, error, s.clock) == Retry(next, delay)
    ensures TallyOk(Reschedule(s1, next, delay))
  {
    if s.log.limited {
      TalkedShows(s);
      RetryCounts(s.config.retry, e, error, s.clock);
      Rescheduled(s, Reschedule(s1, next, delay), e, next);
    }
  }

  lemma TalkedShows(s: Sys)
    requires Ground(s) && Tallied(s) && s.phase.Up? && s.mem.pc.Talking?
    requires s.mem.pc.k < |ChunksOf(s.mem.pc.e, s.mem.pc.target)|
    ensures var e := s.mem.pc.e;
            && e.id in s.mem.entries && s.mem.entries[e.id] == e
            && s.log.ended[e.id] == 0 && Shows(s.log, e.id, e.attempts, 1)
  {
    OpenShows(s, s.mem.pc.e.id);
  }

  lemma RetryCounts(retry: RetryConfig, e: QueueEntry, error: SendError, now: u64)
    requires retry.maxAttempts > 0 && e.attempts < U32_LIMIT - 1 && Decide(retry, e, error, now).Retry?
    ensures var next := Decide(retry, e, error, now).entry;
            next.id == e.id && next.attempts == e.attempts + 1 < retry.maxAttempts
  {
  }

  lemma Rescheduled(s: Sys, s': Sys, e: QueueEntry, next: QueueEntry)
    requires Tallied(s) && s.log.limited && s.phase.Up? && s.mem.pc.Talking? && s.mem.pc.e == e
    requires e.id in s.mem.entries && s.mem.entries[e.id] == e && s.log.ended[e.id] == 0
    requires next.id == e.id && next.attempts == e.attempts + 1 < s.log.limit
    requires s'.phase == s.phase && s'.config == s.config && s'.disk == s.disk && SameTally(s.log, s'.log)
    requires s'.mem == s.mem.(pc := RetryOpening(next))
    ensures TallyOk(s')
  {
    assert HeldShows(s, e.id);
    forall id | id in s'.disk.queue ensures FileShows(s', id) {
      assert FileShows(s, id);
    }
    forall id | id in s'.mem.entries ensures HeldShows(s', id) {
      assert HeldShows(s, id);
    }
  }

  lemma PickTally(s: Sys, a: WorkerAct)
    requires Ground(s) && TallyOk(s) && s.phase.Up? && s.mem.pc == Picking && WorkerTalk(s, a).Some?
    ensures TallyOk(WorkerTalk(s, a).value)
  {
    match a {
      case Pick(e, Some(target), _) =>
        TelegramClient.ChunksExist(Escaping.BodyOf(e.message, target));
        AttemptTally(s, e, target);
      case Pick(e, None, detail) =>
        EndTally(s, Abandon(s, WorkerLoop.WithReason(e, Unresolvable(detail))), e.id);
      case Go(_) => QuietTally(s, Pc(s, Head));
    }
  }

  lemma CleanUpTally(s: Sys, a: WorkerAct)
    requires Shape(s) && TallyOk(s) && s.phase.Up? && !s.mem.pc.Picking? && WorkerTalk(s, a).Some? && !a.Answer?
    ensures TallyOk(WorkerTalk(s, a).value)
  {
    ForgetEffect(s, a);
    if s.log.limited {
      QuietTally(s, WorkerTalk(s, a).value);
    }
  }

  lemma TalkTally(s: Sys, a: WorkerAct)
    requires Ground(s) && TallyOk(s) && s.phase.Up? && WorkerTalk(s, a).Some?
    ensures TallyOk(WorkerTalk(s, a).value)
  {
    if s.mem.pc.Picking? {
      PickTally(s, a);
    } else if !a.Answer? {
      CleanUpTally(s, a);
    } else if a.reply.Accepted? {
      AcceptedTally(s, s.mem.pc.e, s.mem.pc.target, s.mem.pc.k);
    } else {
      RejectedTally(s, s.mem.pc.e, s.mem.pc.target, s.mem.pc.k, a.reply.error);
    }
  }

  lemma BuryTally(s: Sys, ok: bool)
    requires TallyOk(s) && s.phase.Up? && WorkerBury(s, ok).Some?
    ensures TallyOk(WorkerBury(s, ok).value)
  {
    BuryEffect(s, ok);
    if s.log.limited {
      QuietTally(s, WorkerBury(s, ok).value);
    }
  }

  /** What a step of the retry branch does, as far as the tally can see. */
  ghost predicate RetryMoves(s: Sys, s': Sys, e: QueueEntry) {
    && s.phase.Up? && s'.phase == s.phase && s'.config == s.config && Retrying(s.mem.pc) && s.mem.pc.e == e
    && SameTally(s.log.(lost := s'.log.lost), s'.log)
    && (if s.mem.pc.Reinserting? then
          && s'.mem.entries == s.mem.entries[e.id := e] && s'.mem.pc == Head
          && s'.log.lost == s.log.lost && s'.disk.queue == s.disk.queue
        else
          && s'.mem.entries == s.mem.entries && Retrying(s'.mem.pc) && s'.mem.pc.e == e
          && StoreMoves(s, s', e))
  }

  /** Not finished yet, saved, or not saved. */
  predicate StoreMoves(s: Sys, s': Sys, e: QueueEntry) {
    || (!s'.mem.pc.Reinserting? && s'.log.lost == s.log.lost && s'.disk.queue == s.disk.queue)
    || (s'.mem.pc.Reinserting? && s'.log.lost == s.log.lost && s'.disk.queue == s.disk.queue[e.id := Complete(e)])
    || (s'.mem.pc.Reinserting? && s'.log.lost == s.log.lost + multiset{e.id} && s'.disk.queue == s.disk.queue)
  }

  lemma RetryMoved(s: Sys, ok: bool)
    requires Shape(s) && s.phase.Up? && WorkerRetry(s, ok).Some?
    ensures RetryMoves(s, WorkerRetry(s, ok).value, s.mem.pc.e)
  {
    RetryEffect(s, ok);
  }

  /** The new retry state reaches the disk, or one more does not. */
  lemma RetryTally(s: Sys, ok: bool)
    requires Ground(s) && TallyOk(s) && s.phase.Up? && WorkerRetry(s, ok).Some?
    ensures TallyOk(WorkerRetry(s, ok).value)
  {
    RetryMoved(s, ok);
    if s.log.limited {
      OpenShows(s, s.mem.pc.e.id);
      RetryTallied(s, WorkerRetry(s, ok).value, s.mem.pc.e);
    }
  }

  lemma RetryTallied(s: Sys, s': Sys, e: QueueEntry)
    requires Tallied(s) && RetryMoves(s, s', e) && e.id in s.mem.entries
    requires s.log.ended[e.id] == 0 && Shows(s.log, e.id, e.attempts, 0)
    ensures Tallied(s')
  {
    forall id | id in s'.disk.queue ensures FileShows(s', id) {
      RetryFile(s, s', e, id);
    }
    forall id | id in s'.mem.entries ensures HeldShows(s', id) {
      RetryHeld(s, s', e, id);
    }
  }

  lemma RetryFile(s: Sys, s': Sys, e: QueueEntry, id: Id)
    requires RetryMoves(s, s', e) && id in s'.disk.queue && Shows(s.log, e.id, e.attempts, 0) && s.log.ended[e.id] == 0
    requires id in s.disk.queue ==> FileShows(s, id)
    ensures FileShows(s', id)
  {
  }

  lemma RetryHeld(s: Sys, s': Sys, e: QueueEntry, id: Id)
    requires RetryMoves(s, s', e) && id in s'.mem.entries && Shows(s.log, e.id, e.attempts, 0)
    requires id in s.mem.entries && HeldShows(s, id)
    ensures HeldShows(s', id)
  {
  }

  // ----- the process -----

  lemma LoadTally(s: Sys, name: DirName, readable: bool, movable: bool)
    requires Shape(s) && TallyOk(s) && s.phase.Booting? && (name.Final? || name.Temp?)
    ensures TallyOk(LoadName(s, name, readable, movable))
  {
    var s' := LoadName(s, name, readable, movable);
    LoadEffect(s, name, readable, movable);
    if s.log.limited {
      forall id | id in s'.disk.queue ensures FileShows(s', id) {
        assert FileShows(s, id);
      }
      forall id | id in s'.mem.entries ensures HeldShows(s', id) {
        if id in s.mem.entries && s'.mem.entries[id] == s.mem.entries[id] {
          assert HeldShows(s, id);
        } else {
          assert FileShows(s, name.id);
        }
      }
    }
  }

  lemma CrashTally(s: Sys)
    requires TallyOk(s) && !s.phase.Down?
    ensures TallyOk(ProcessStep(s, Crash).value)
  {
    var s' := ProcessStep(s, Crash).value;
    if s.log.limited {
      forall id | id in s'.disk.queue ensures FileShows(s', id) {
        assert FileShows(s, id);
      }
    }
  }

  /** Every start pardons one attempt. */
  lemma BootTally(s: Sys, config: Config)
    requires Shape(s) && TallyOk(s) && s.phase.Down?
    ensures TallyOk(ProcessStep(s, Boot(config)).value)
  {
    var s' := ProcessStep(s, Boot(config)).value;
    if s'.log.limited {
      forall id | id in s'.disk.queue ensures FileShows(s', id) {
        assert FileShows(s, id);
      }
    }
  }

  lemma StartTally(s: Sys)
    requires Shape(s) && TallyOk(s) && ProcessStep(s, Start).Some?
    ensures TallyOk(ProcessStep(s, Start).value)
  {
    var s' := ProcessStep(s, Start).value;
    if s.log.limited {
      forall id | id in s'.disk.queue ensures FileShows(s', id) {
        assert FileShows(s, id);
      }
      forall id | id in s'.mem.entries ensures HeldShows(s', id) {
        assert HeldShows(s, id);
      }
    }
  }

  lemma TickTally(s: Sys, now: u64)
    requires TallyOk(s)
    ensures TallyOk(ProcessStep(s, Tick(now)).value)
  {
    var s' := ProcessStep(s, Tick(now)).value;
    if s.log.limited {
      forall id | id in s'.disk.queue ensures FileShows(s', id) {
        assert FileShows(s, id);
      }
      forall id | id in s'.mem.entries ensures HeldShows(s', id) {
        assert HeldShows(s, id);
      }
    }
  }

  lemma StepTally(s: Sys, a: Action)
    requires Ground(s) && TallyOk(s) && Step(s, a).Some?
    ensures TallyOk(Step(s, a).value)
  {
    match a {
      case OfHandler(c, ha) => HandlerTally(s, c, ha);
      case OfProcess(pa) =>
        match pa {
          case Tick(now) => TickTally(s, now);
          case Crash => CrashTally(s);
          case Boot(config) => BootTally(s, config);
          case Load(name, readable, movable) => LoadTally(s, name, readable, movable);
          case Start => StartTally(s);
        }
      case OfWorker(wa) =>
        if Burying(s.mem.pc) {
          BuryTally(s, wa.ok);
        } else if Retrying(s.mem.pc) {
          RetryTally(s, wa.ok);
        } else if Speaking(s.mem.pc) {
          TalkTally(s, wa);
        } else {
          TakeTally(s, wa);
        }
    }
  }
}
