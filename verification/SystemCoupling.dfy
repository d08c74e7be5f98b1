/**
  Disk and memory agree. For every id no file operation has failed on in this process
  lifetime, the queue file is there exactly when some part of memory holds the entry,
  and its content is that entry. A crash at the loop head therefore loses nothing: the
  next start rebuilds exactly what memory held.
*/
module SystemCoupling {
  import opened Messages
  import opened QueueStore
  import opened System
  import opened SystemShape
  import opened SystemDurable
  import opened SystemEffects

  /** The worker is about to change what memory says about `id`, or has just changed the disk. */
  predicate InTransit(pc: WorkerPc, id: Id) {
    (pc.Reinserting? || pc.Dropping?) && pc.e.id == id
  }

  ghost predicate ContentOk(entries: map<Id, QueueEntry>, pc: WorkerPc, queue: map<Id, File>, faulty: set<Id>) {
    && (forall id :: id in entries && id !in faulty && !InTransit(pc, id) ==>
          id in queue && queue[id] == Complete(entries[id]))
    && (pc.Reinserting? && pc.e.id !in faulty ==> pc.e.id in queue && queue[pc.e.id] == Complete(pc.e))
    && (pc.Dropping? && pc.e.id !in faulty ==> pc.e.id !in queue)
    && (pc.Counting? && pc.id !in faulty ==> pc.id !in queue)
  }

  ghost predicate OwnedStored(handlers: map<Conn, Handler>, id: Id) {
    exists c :: c in handlers && Stored(handlers[c]) && handlers[c].e.id == id
  }

  /** Somebody in memory answers for the file of `id`. */
  ghost predicate Answered(m: Mem, id: Id) {
    id in m.entries || InChannel(m.channel, id) || OwnedStored(m.handlers, id) || m.pc == Unlinking(id)
  }

  ghost predicate NoStray(s: Sys) {
    && (s.phase.Up? && s.mem.pc != Stopped ==>
          forall id :: id in s.disk.queue && id !in s.log.faulty ==> Answered(s.mem, id))
    && (s.phase.Booting? ==>
          forall id :: id in s.disk.queue && id !in s.log.faulty ==> id in s.mem.entries || Final(id) in s.phase.todo)
  }

  /** An id once sent is delivered, set aside, unreadable at a start, or still on disk and held. */
  ghost predicate SentHeld(s: Sys, id: Id) {
    && id in s.disk.queue
    && (s.phase.Up? && s.mem.pc != Stopped ==> id in s.mem.entries || InChannel(s.mem.channel, id))
    && (s.phase.Booting? ==> id in s.mem.entries || Final(id) in s.phase.todo)
  }

  ghost predicate Finished(log: Log, id: Id) {
    Deliveries(log.receipts, id) >= 1 || id in log.givenUp || id in log.skipped
  }

  ghost predicate SentAccounted(s: Sys) {
    && (forall id :: id in s.log.sent ==> Finished(s.log, id) || SentHeld(s, id))
    && (Burying(s.mem.pc) ==> s.mem.pc.e.id in s.log.givenUp)
  }

  ghost predicate Coupled(s: Sys) {
    ContentOk(s.mem.entries, s.mem.pc, s.disk.queue, s.log.faulty) && NoStray(s) && SentAccounted(s)
  }

  // ----- handlers -----

  /** A handler's step keeps answering for every file that stays. */
  lemma HandlerCoupled(s: Sys, c: Conn, a: HandlerAct)
    requires Base(s) && Coupled(s) && HandlerStep(s, c, a).Some?
    ensures Coupled(HandlerStep(s, c, a).value)
  {
    if a.Proceed? {
      HandlerProceedCoupled(s, c, a.ok);
    } else {
      var s' := HandlerStep(s, c, a).value;
      StoredKept(s.mem.handlers, s'.mem.handlers, c);
      assert forall id :: Answered(s.mem, id) ==> Answered(s'.mem, id);
      assert forall id :: SentHeld(s, id) ==> SentHeld(s', id);
    }
  }

  lemma HandlerProceedCoupled(s: Sys, c: Conn, ok: bool)
    requires Base(s) && Coupled(s) && HandlerStep(s, c, Proceed(ok)).Some?
    ensures Coupled(HandlerStep(s, c, Proceed(ok)).value)
  {
    var s' := HandlerStep(s, c, Proceed(ok)).value;
    var h := s.mem.handlers[c];
    if Owns(h) {
      assert HandlerOk(h, s.log.orig) && !Beyond(s.mem.entries, s.mem.channel, s.mem.pc, h.e.id);
    }
    if h.Renaming? && ok {
      HandlerRenameCoupled(s, c, h.e);
    } else if h.Removing? && ok {
      HandlerRemoveCoupled(s, c, h.e);
    } else if h.Sending? && s.mem.pc != Stopped {
      PushCoupled(s, c, h.e);
    } else {
      ProceedIsQuiet(s, c, ok);
      HandlerQuietCoupled(s, s', c, s'.mem.handlers[c]);
    }
  }

  /** Apart from these three, a handler's step leaves the queue directory and the record alone. */
  lemma ProceedIsQuiet(s: Sys, c: Conn, ok: bool)
    requires HandlerStep(s, c, Proceed(ok)).Some?
    requires var h := s.mem.handlers[c];
             !(h.Renaming? && ok) && !(h.Removing? && ok) && !(h.Sending? && s.mem.pc != Stopped)
    ensures var s', h := HandlerStep(s, c, Proceed(ok)).value, s.mem.handlers[c];
            && c in s.mem.handlers && c in s'.mem.handlers && s'.phase == s.phase
            && s'.mem == s.mem.(handlers := s.mem.handlers[c := s'.mem.handlers[c]])
            && s'.disk.queue == s.disk.queue && s.log.faulty <= s'.log.faulty
            && s'.log.sent == s.log.sent && s'.log.receipts == s.log.receipts && s'.log.givenUp == s.log.givenUp
            && s'.log.skipped == s.log.skipped
            && (Stored(h) ==> h.e.id in s'.log.faulty
                              || (Stored(s'.mem.handlers[c]) && s'.mem.handlers[c].e.id == h.e.id))
  {
    match s.mem.handlers[c] {
      case Opening(_) =>
      case Writing(_) =>
      case Renaming(_) =>
      case Checking(_) =>
      case Sending(_) =>
      case Removing(_) =>
      case Acking(_) =>
      case Refusing(_) =>
    }
  }

  /** Changing the handler of `c`, who answers for nothing, keeps everyone else's answers. */
  lemma StoredKept(handlers: map<Conn, Handler>, handlers': map<Conn, Handler>, c: Conn)
    requires c in handlers ==> !Stored(handlers[c])
    requires forall d :: d in handlers && d != c ==> d in handlers' && handlers'[d] == handlers[d]
    ensures forall id :: OwnedStored(handlers, id) ==> OwnedStored(handlers', id)
  {
  }

  /** Only the handler of `x` stops answering. */
  lemma StoredExcept(handlers: map<Conn, Handler>, c: Conn, h: Handler, id: Id)
    requires OwnedStored(handlers, id) && c in handlers
    requires !(Owns(handlers[c]) && handlers[c].e.id == id) || (Stored(h) && h.e.id == id)
    ensures OwnedStored(handlers[c := h], id)
  {
    var d :| d in handlers && Stored(handlers[d]) && handlers[d].e.id == id;
    assert handlers[c := h][d] == if d == c then h else handlers[d];
  }

  lemma HandlerQuietCoupled(s: Sys, s': Sys, c: Conn, h: Handler)
    requires Base(s) && Coupled(s) && s.phase.Up? && c in s.mem.handlers
    requires s'.mem == s.mem.(handlers := s.mem.handlers[c := h]) && s'.phase == s.phase
    requires s'.disk.queue == s.disk.queue && s.log.faulty <= s'.log.faulty
    requires s'.log.sent == s.log.sent && s'.log.receipts == s.log.receipts && s'.log.givenUp == s.log.givenUp
          && s'.log.skipped == s.log.skipped
    requires Stored(s.mem.handlers[c]) ==>
               s.mem.handlers[c].e.id in s'.log.faulty || (Stored(h) && h.e.id == s.mem.handlers[c].e.id)
    ensures Coupled(s')
  {
    forall id | Answered(s.mem, id) && id !in s'.log.faulty ensures Answered(s'.mem, id) {
      if OwnedStored(s.mem.handlers, id) {
        if Stored(s.mem.handlers[c]) {
          StoredExcept(s.mem.handlers, c, h, id);
        } else {
          StoredKept(s.mem.handlers, s'.mem.handlers, c);
        }
      }
    }
    assert forall id :: SentHeld(s, id) ==> SentHeld(s', id);
    assert forall id :: Finished(s.log, id) ==> Finished(s'.log, id);
  }

  lemma HandlerRenameCoupled(s: Sys, c: Conn, e: QueueEntry)
    requires Base(s) && Coupled(s) && s.phase.Up? && c in s.mem.handlers && s.mem.handlers[c] == Renaming(e)
    ensures e.id in s.disk.temps && Coupled(At(OnDisk(s, RenameTemp(s.disk, e.id)), c, Checking(e)))
  {
    var s' := At(OnDisk(s, RenameTemp(s.disk, e.id)), c, Checking(e));
    assert !Beyond(s.mem.entries, s.mem.channel, s.mem.pc, e.id);
    WorkerIdsApart(s, e.id);
    StoredKept(s.mem.handlers, s'.mem.handlers, c);
    assert OwnedStored(s'.mem.handlers, e.id) by {
      assert s'.mem.handlers[c] == Checking(e);
    }
    assert forall id :: Answered(s.mem, id) ==> Answered(s'.mem, id);
    assert forall id :: SentHeld(s, id) ==> SentHeld(s', id);
  }

  /** The worker's own id is not one a handler holds. */
  lemma WorkerIdsApart(s: Sys, id: Id)
    requires Shape(s) && !Beyond(s.mem.entries, s.mem.channel, s.mem.pc, id)
    ensures Burying(s.mem.pc) || Retrying(s.mem.pc) ==> s.mem.pc.e.id != id
    ensures s.mem.pc.Counting? || s.mem.pc.Unlinking? ==> s.mem.pc.id != id
  {
  }

  lemma HandlerRemoveCoupled(s: Sys, c: Conn, e: QueueEntry)
    requires Base(s) && Coupled(s) && s.phase.Up? && c in s.mem.handlers && s.mem.handlers[c] == Removing(e)
    ensures Coupled(At(OnDisk(s, Unlink(s.disk, e.id)), c, Refusing(e.id)))
  {
    var s' := At(OnDisk(s, Unlink(s.disk, e.id)), c, Refusing(e.id));
    assert !Beyond(s.mem.entries, s.mem.channel, s.mem.pc, e.id);
    WorkerIdsApart(s, e.id);
    forall id | id in s'.disk.queue && id !in s.log.faulty && s.mem.pc != Stopped ensures Answered(s'.mem, id) {
      assert Answered(s.mem, id);
      if OwnedStored(s.mem.handlers, id) {
        StoredExcept(s.mem.handlers, c, Refusing(e.id), id);
      }
    }
    assert e.id !in s.log.sent by {
      assert HandlersSent(s.mem.handlers, s.log.sent);
    }
    assert forall id :: SentHeld(s, id) && id != e.id ==> SentHeld(s', id);
  }

  lemma PushCoupled(s: Sys, c: Conn, e: QueueEntry)
    requires Base(s) && Coupled(s) && s.phase.Up? && c in s.mem.handlers && s.mem.handlers[c] == Sending(e)
    requires s.mem.pc != Stopped
    ensures Coupled(s.(mem := s.mem.(channel := s.mem.channel + [e], handlers := s.mem.handlers[c := Acking(e.id)]),
                       log := s.log.(sent := s.log.sent + {e.id})))
  {
    var s' := s.(mem := s.mem.(channel := s.mem.channel + [e], handlers := s.mem.handlers[c := Acking(e.id)]),
                 log := s.log.(sent := s.log.sent + {e.id}));
    forall id ensures InChannel(s'.mem.channel, id) <==> InChannel(s.mem.channel, id) || id == e.id {
      PushMembers(s.mem.channel, e, id);
    }
    forall id | Answered(s.mem, id) ensures Answered(s'.mem, id) {
      if OwnedStored(s.mem.handlers, id) && id != e.id {
        StoredExcept(s.mem.handlers, c, Acking(e.id), id);
      }
    }
    forall id | id in s'.log.sent ensures Finished(s'.log, id) || SentHeld(s', id) {
      if id == e.id {
        assert e.id in s.disk.queue;
      } else {
        assert Finished(s.log, id) || SentHeld(s, id);
      }
    }
  }

  // ----- the worker -----

  ghost predicate Handed(m: Mem, id: Id) {
    id in m.entries || InChannel(m.channel, id)
  }

  /** The worker or the channel answers for the file of `id`. */
  ghost predicate Worked(m: Mem, id: Id) {
    id in m.entries || InChannel(m.channel, id) || m.pc == Unlinking(id)
  }

  /** Memory changes in a way that keeps answering for every file still on disk. */
  lemma WorkerCoupled(s: Sys, s': Sys)
    requires Coupled(s) && s.phase.Up? && s.mem.pc != Stopped && s'.phase == s.phase
    requires ContentOk(s'.mem.entries, s'.mem.pc, s'.disk.queue, s'.log.faulty)
    requires s.log.faulty <= s'.log.faulty && s'.log.sent == s.log.sent
    requires s'.disk.queue.Keys <= s.disk.queue.Keys
    requires s'.mem.handlers == s.mem.handlers
    requires forall id :: Worked(s.mem, id) && id in s'.disk.queue && id !in s'.log.faulty ==> Worked(s'.mem, id)
    requires forall id :: Finished(s.log, id) ==> Finished(s'.log, id)
    requires forall id :: Handed(s.mem, id) && id in s.disk.queue && !Finished(s'.log, id) ==>
               id in s'.disk.queue && Handed(s'.mem, id)
    requires Burying(s'.mem.pc) ==> s'.mem.pc.e.id in s'.log.givenUp
    ensures Coupled(s')
  {
  }

  /** Only the program counter moves, and neither place it leaves nor enters is about the disk. */
  predicate PlainPc(pc: WorkerPc) {
    !pc.Unlinking? && !pc.Counting? && !pc.Reinserting? && !pc.Dropping? && !pc.Stopped?
  }

  lemma PcCoupled(s: Sys, s': Sys)
    requires Coupled(s) && s.phase.Up? && s'.phase == s.phase && s'.disk == s.disk
    requires s'.mem == s.mem.(pc := s'.mem.pc, pending := s'.mem.pending) && PlainPc(s.mem.pc) && PlainPc(s'.mem.pc)
    requires s'.log.faulty == s.log.faulty && s'.log.sent == s.log.sent
    requires forall id :: Finished(s.log, id) ==> Finished(s'.log, id)
    requires Burying(s'.mem.pc) ==> s'.mem.pc.e.id in s'.log.givenUp
    ensures Coupled(s')
  {
  }

  lemma InsertCoupled(s: Sys, draining: bool)
    requires Base(s) && Coupled(s) && s.phase.Up? && s.mem.channel != []
    requires s.mem.pc == Draining || s.mem.pc == Waiting
    ensures Coupled(Insert(s, draining))
  {
    var s' := Insert(s, draining);
    forall id ensures InChannel(s.mem.channel, id) <==> InChannel(s'.mem.channel, id) || id == s.mem.channel[0].id {
      PopMembers(s.mem.channel, id);
    }
    assert s.disk.queue[s.mem.channel[0].id] == Complete(s.mem.channel[0]);
    WorkerCoupled(s, s');
  }

  lemma TakeCoupled(s: Sys, a: WorkerAct)
    requires Base(s) && Coupled(s) && s.phase.Up? && WorkerTake(s, a).Some?
    ensures Coupled(WorkerTake(s, a).value)
  {
    TakeEffect(s, a);
    if Inserts(s, a) {
      InsertCoupled(s, s.mem.pc.Draining?);
    } else if s.mem.pc.Waiting? && a.Stop? {
      StopCoupled(s);
    } else {
      PcCoupled(s, WorkerTake(s, a).value);
    }
  }

  lemma StopCoupled(s: Sys)
    requires Base(s) && Coupled(s) && s.phase.Up? && s.mem.pc.Waiting?
    ensures Coupled(s.(mem := s.mem.(channel := [], pc := Stopped)))
  {
  }

  lemma AcceptedFinishes(s: Sys, e: QueueEntry, target: Target, k: nat)
    requires k < |ChunksOf(e, target)|
    ensures forall id :: Finished(s.log, id) ==> Finished(ChunkAccepted(s, e, target, k).log, id)
  {
  }

  lemma AcceptedCoupled(s: Sys, e: QueueEntry, target: Target, k: nat)
    requires Base(s) && Coupled(s) && s.phase.Up? && s.mem.pc == Talking(e, target, k) && k < |ChunksOf(e, target)|
    ensures Coupled(ChunkAccepted(s, e, target, k))
  {
    AcceptedFinishes(s, e, target, k);
    PcCoupled(s, ChunkAccepted(s, e, target, k));
  }

  /** The worker decides about an entry; an entry given up is on record as such. */
  predicate Decides(s: Sys, s': Sys) {
    && s'.phase == s.phase && s'.disk == s.disk && s'.mem == s.mem.(pc := s'.mem.pc) && PlainPc(s'.mem.pc)
    && s'.log.faulty == s.log.faulty && s'.log.sent == s.log.sent && s'.log.receipts == s.log.receipts
    && s'.log.skipped == s.log.skipped && s.log.givenUp <= s'.log.givenUp
    && (Burying(s'.mem.pc) ==> s'.mem.pc.e.id in s'.log.givenUp)
  }

  lemma RejectedDecides(s: Sys, e: QueueEntry, target: Target, k: nat, error: SendError)
    requires k < |ChunksOf(e, target)|
    ensures Decides(s, ChunkRejected(s, e, target, k, error))
  {
  }

  lemma RejectedCoupled(s: Sys, e: QueueEntry, target: Target, k: nat, error: SendError)
    requires Base(s) && Coupled(s) && s.phase.Up? && s.mem.pc == Talking(e, target, k) && k < |ChunksOf(e, target)|
    ensures Coupled(ChunkRejected(s, e, target, k, error))
  {
    RejectedDecides(s, e, target, k, error);
    PcCoupled(s, ChunkRejected(s, e, target, k, error));
  }

  lemma PickDecides(s: Sys, a: WorkerAct)
    requires s.mem.pc == Picking && WorkerTalk(s, a).Some?
    ensures Decides(s, WorkerTalk(s, a).value)
  {
    match a {
      case Pick(_, resolution, _) =>
        if resolution.Some? {
        } else {
        }
      case Go(_) =>
    }
  }

  lemma PickCoupled(s: Sys, a: WorkerAct)
    requires Base(s) && Coupled(s) && s.phase.Up? && s.mem.pc == Picking && WorkerTalk(s, a).Some?
    ensures Coupled(WorkerTalk(s, a).value)
  {
    PickDecides(s, a);
    PcCoupled(s, WorkerTalk(s, a).value);
  }

  lemma ForgetCoupled(s: Sys, ok: bool)
    requires Base(s) && Coupled(s) && s.phase.Up? && !s.mem.pc.Picking? && WorkerTalk(s, Go(ok)).Some?
    ensures Coupled(WorkerTalk(s, Go(ok)).value)
  {
    match s.mem.pc {
      case Talking(e, target, k) =>
        LetGoCoupled(s, e.id);
      case Unlinking(id) =>
        UnlinkCoupled(s, id, ok);
      case Counting(id) =>
        WorkerCoupled(s, WorkerTalk(s, Go(ok)).value);
    }
  }

  lemma LetGoCoupled(s: Sys, id: Id)
    requires Base(s) && Coupled(s) && s.phase.Up? && s.mem.pc.Talking? && Finished(s.log, id)
    ensures Coupled(s.(mem := s.mem.(entries := s.mem.entries - {id}, pc := Unlinking(id))))
  {
    WorkerCoupled(s, s.(mem := s.mem.(entries := s.mem.entries - {id}, pc := Unlinking(id))));
  }

  lemma UnlinkCoupled(s: Sys, id: Id, ok: bool)
    requires Base(s) && Coupled(s) && s.phase.Up? && s.mem.pc == Unlinking(id)
    ensures Coupled(Pc(if ok then OnDisk(s, Unlink(s.disk, id)) else Fault(s, id), Counting(id)))
  {
    assert Finished(s.log, id);
    WorkerCoupled(s, Pc(if ok then OnDisk(s, Unlink(s.disk, id)) else Fault(s, id), Counting(id)));
  }

  lemma TalkCoupled(s: Sys, a: WorkerAct)
    requires Base(s) && Coupled(s) && s.phase.Up? && WorkerTalk(s, a).Some?
    ensures Coupled(WorkerTalk(s, a).value)
  {
    if s.mem.pc.Picking? {
      PickCoupled(s, a);
    } else if a.Answer? {
      if a.reply.Accepted? {
        AcceptedCoupled(s, s.mem.pc.e, s.mem.pc.target, s.mem.pc.k);
      } else {
        RejectedCoupled(s, s.mem.pc.e, s.mem.pc.target, s.mem.pc.k, a.reply.error);
      }
    } else {
      ForgetCoupled(s, a.ok);
    }
  }

  lemma BuryCoupled(s: Sys, ok: bool)
    requires Base(s) && Coupled(s) && s.phase.Up? && WorkerBury(s, ok).Some?
    ensures Coupled(WorkerBury(s, ok).value)
  {
    var s' := WorkerBury(s, ok).value;
    BuryEffect(s, ok);
    BuryContent(s, ok);
    assert Finished(s.log, s.mem.pc.e.id);
    WorkerCoupled(s, s');
  }

  lemma BuryContent(s: Sys, ok: bool)
    requires Base(s) && Coupled(s) && s.phase.Up? && WorkerBury(s, ok).Some?
    ensures var s' := WorkerBury(s, ok).value;
            ContentOk(s'.mem.entries, s'.mem.pc, s'.disk.queue, s'.log.faulty)
  {
  }

  lemma RetryCoupled(s: Sys, ok: bool)
    requires Base(s) && Coupled(s) && s.phase.Up? && WorkerRetry(s, ok).Some?
    ensures Coupled(WorkerRetry(s, ok).value)
  {
    RetryContent(s, ok);
    RetriedOnDisk(s);
    RetryHoldings(s, ok);
    SameHoldings(s, WorkerRetry(s, ok).value);
  }

  /** The same ids are on disk and in the same places. */
  ghost predicate HoldsSameIds(s: Sys, s': Sys) {
    && s'.phase == s.phase && s.mem.pc != Stopped && !s.mem.pc.Unlinking? && !Burying(s'.mem.pc)
    && s'.disk.queue.Keys == s.disk.queue.Keys && s'.mem.entries.Keys == s.mem.entries.Keys
    && s'.mem.channel == s.mem.channel && s'.mem.handlers == s.mem.handlers
    && s.log.faulty <= s'.log.faulty && s'.log.sent == s.log.sent && s'.log.receipts == s.log.receipts
    && s'.log.givenUp == s.log.givenUp && s'.log.skipped == s.log.skipped
  }

  lemma SameHoldings(s: Sys, s': Sys)
    requires Coupled(s) && s.phase.Up? && HoldsSameIds(s, s')
    requires ContentOk(s'.mem.entries, s'.mem.pc, s'.disk.queue, s'.log.faulty)
    ensures Coupled(s')
  {
    WorkerCoupled(s, s');
  }

  lemma RetryHoldings(s: Sys, ok: bool)
    requires WorkerRetry(s, ok).Some? && s.mem.pc.e.id in s.disk.queue && s.mem.pc.e.id in s.mem.entries
    ensures HoldsSameIds(s, WorkerRetry(s, ok).value)
  {
    RetryEffect(s, ok);
  }

  lemma RetriedOnDisk(s: Sys)
    requires Base(s) && s.phase.Up? && Retrying(s.mem.pc)
    ensures s.mem.pc.e.id in s.disk.queue && s.mem.pc.e.id in s.mem.entries
  {
  }

  lemma RetryContent(s: Sys, ok: bool)
    requires Base(s) && Coupled(s) && s.phase.Up? && WorkerRetry(s, ok).Some?
    ensures var s' := WorkerRetry(s, ok).value;
            ContentOk(s'.mem.entries, s'.mem.pc, s'.disk.queue, s'.log.faulty)
  {
  }

  // ----- the process -----

  lemma LoadCoupled(s: Sys, name: DirName, readable: bool, movable: bool)
    requires Base(s) && Coupled(s) && s.phase.Booting? && name in s.phase.todo && (name.Final? || name.Temp?)
    ensures Coupled(LoadName(s, name, readable, movable))
  {
    var s' := LoadName(s, name, readable, movable);
    forall id | id in s.log.sent ensures Finished(s'.log, id) || SentHeld(s', id) {
      assert Finished(s.log, id) || SentHeld(s, id);
    }
  }

  lemma ProcessCoupled(s: Sys, a: ProcessAct)
    requires Base(s) && Coupled(s) && ProcessStep(s, a).Some?
    ensures Coupled(ProcessStep(s, a).value)
  {
    var s' := ProcessStep(s, a).value;
    if a.Load? {
      LoadCoupled(s, a.name, a.readable, a.movable);
    } else {
      forall id | id in s.log.sent ensures Finished(s'.log, id) || SentHeld(s', id) {
        assert Finished(s.log, id) || SentHeld(s, id);
      }
    }
  }

  lemma StepCoupled(s: Sys, a: Action)
    requires Base(s) && Coupled(s) && Step(s, a).Some?
    ensures Coupled(Step(s, a).value)
  {
    match a {
      case OfHandler(c, ha) => HandlerCoupled(s, c, ha);
      case OfProcess(pa) => ProcessCoupled(s, pa);
      case OfWorker(wa) =>
        if Burying(s.mem.pc) {
          BuryCoupled(s, wa.ok);
        } else if Retrying(s.mem.pc) {
          RetryCoupled(s, wa.ok);
        } else if Speaking(s.mem.pc) {
          TalkCoupled(s, wa);
        } else {
          TakeCoupled(s, wa);
        }
    }
  }
}
