/**
  The promise of the daemon: what it has answered `Queued` for is on disk or delivered,
  in every reachable state, whatever file operations fail and whenever it crashes.
*/
module SystemDurable {
  import opened Messages
  import opened QueueStore
  import opened System
  import opened SystemShape

  // ----- the disk side of what memory holds -----

  ghost predicate BuriedFile(failed: map<FailedName, File>, e: QueueEntry) {
    FailedNameOf(e) in failed && failed[FailedNameOf(e)] == Complete(e)
  }

  /** Every held entry has a queue file, except one whose failed file is complete and that is about to be dropped. */
  ghost predicate HeldOnDisk(entries: map<Id, QueueEntry>, pc: WorkerPc, d: Disk) {
    && (forall id :: id in entries ==> id in d.queue || (pc.Dropping? && pc.e.id == id && BuriedFile(d.failed, pc.e)))
    && (pc.DeadUnlinking? ==> BuriedFile(d.failed, pc.e))
  }

  ghost predicate ChannelOnDisk(channel: seq<QueueEntry>, queue: map<Id, File>) {
    forall i :: 0 <= i < |channel| ==> channel[i].id in queue && queue[channel[i].id] == Complete(channel[i])
  }

  ghost predicate HandlersOnDisk(handlers: map<Conn, Handler>, queue: map<Id, File>) {
    forall c :: c in handlers && Owns(handlers[c]) ==>
      if Stored(handlers[c]) then handlers[c].e.id in queue && queue[handlers[c].e.id] == Complete(handlers[c].e)
      else handlers[c].e.id !in queue
  }

  // ----- what acknowledged ids rest on -----

  /** A complete copy of `o` is in the failed directory. */
  ghost predicate SetAsideAs(failed: map<FailedName, File>, o: QueueEntry) {
    exists name :: name in failed && failed[name].Complete? && failed[name].entry.SameMessage(o)
                   && (name == FailedNameOf(o) || name == Quarantined(o.id))
  }

  ghost predicate Kept(d: Disk, receipts: seq<Receipt>, o: QueueEntry) {
    o.id in d.queue || SetAsideAs(d.failed, o) || Deliveries(receipts, o.id) >= 1
  }

  ghost predicate SentKept(sent: set<Id>, d: Disk, receipts: seq<Receipt>, orig: map<Id, QueueEntry>) {
    forall id :: id in sent ==> id in orig && Kept(d, receipts, orig[id])
  }

  /** Ids are acknowledged, or about to be, only after they were sent; held ids were not. */
  ghost predicate HandlersSent(handlers: map<Conn, Handler>, sent: set<Id>) {
    forall c :: c in handlers ==>
      && (handlers[c].Acking? ==> handlers[c].id in sent)
      && (Owns(handlers[c]) ==> handlers[c].e.id !in sent)
  }

  /** The worker removes the file of a delivered entry only after the delivery. */
  ghost predicate PcDelivered(pc: WorkerPc, receipts: seq<Receipt>) {
    && (pc.Talking? && pc.k == |ChunksOf(pc.e, pc.target)| ==> Deliveries(receipts, pc.e.id) >= 1)
    && (pc.Unlinking? || pc.Counting? ==> Deliveries(receipts, pc.id) >= 1)
  }

  ghost predicate Durable(s: Sys) {
    && HeldOnDisk(s.mem.entries, s.mem.pc, s.disk)
    && ChannelOnDisk(s.mem.channel, s.disk.queue)
    && HandlersOnDisk(s.mem.handlers, s.disk.queue)
    && SentKept(s.log.sent, s.disk, s.log.receipts, s.log.orig)
    && HandlersSent(s.mem.handlers, s.log.sent)
    && s.log.acked <= s.log.sent
    && PcDelivered(s.mem.pc, s.log.receipts)
  }

  ghost predicate Base(s: Sys) {
    Shape(s) && Durable(s)
  }

  // ----- disk frames -----

  lemma DeliveriesPush(receipts: seq<Receipt>, r: Receipt, id: Id)
    ensures Deliveries(receipts + [r], id) == Deliveries(receipts, id) + if r.entry.id == id then 1 else 0
  {
  }

  /** One id's queue file changes; nobody else notices. */
  lemma QueueFrame(s: Sys, queue: map<Id, File>, x: Id)
    requires Shape(s) && Durable(s)
    requires forall id :: id != x ==>
               (id in queue <==> id in s.disk.queue) && (id in queue ==> queue[id] == s.disk.queue[id])
    ensures !InChannel(s.mem.channel, x) ==> ChannelOnDisk(s.mem.channel, queue)
    ensures !Owned(s.mem.handlers, x) ==> HandlersOnDisk(s.mem.handlers, queue)
    ensures x !in s.log.sent || x in queue || Kept(s.disk.(queue := queue), s.log.receipts, s.log.orig[x]) ==>
              SentKept(s.log.sent, s.disk.(queue := queue), s.log.receipts, s.log.orig)
  {
  }

  /** One failed file of entry `e` changes; only the message of `e` can notice. */
  lemma FailedFrame(s: Sys, failed: map<FailedName, File>, e: QueueEntry)
    requires Shape(s) && SentKept(s.log.sent, s.disk, s.log.receipts, s.log.orig)
    requires forall name :: name in s.disk.failed && name != FailedNameOf(e) ==>
               name in failed && failed[name] == s.disk.failed[name]
    requires e.id in s.disk.queue
    ensures SentKept(s.log.sent, s.disk.(failed := failed), s.log.receipts, s.log.orig)
  {
  }

  // ----- handlers -----

  /** A handler moves on without touching the queue, the failed directory or the channel. */
  ghost predicate QuietMove(s: Sys, s': Sys, c: Conn, h: Handler) {
    && s'.mem == s.mem.(handlers := s.mem.handlers[c := h])
    && s'.disk.queue == s.disk.queue && s'.disk.failed == s.disk.failed
    && s'.log.sent == s.log.sent && s'.log.receipts == s.log.receipts && s'.log.orig == s.log.orig
    && s'.log.acked <= s.log.sent
  }

  lemma HandlerMovesDurable(s: Sys, s': Sys, c: Conn, h: Handler)
    requires Shape(s) && Durable(s) && c in s.mem.handlers && QuietMove(s, s', c, h) && !h.Acking?
    requires Owns(h) ==> Owns(s.mem.handlers[c]) && Stored(h) == Stored(s.mem.handlers[c]) && h.e == s.mem.handlers[c].e
    ensures Durable(s')
  {
  }

  lemma StoreDurable(s: Sys, c: Conn, ok: bool)
    requires Shape(s) && Durable(s) && s.phase.Up? && c in s.mem.handlers
    requires HandlerStore(s, c, s.mem.handlers[c], ok).Some?
    ensures Durable(HandlerStore(s, c, s.mem.handlers[c], ok).value)
  {
    var h, s' := s.mem.handlers[c], HandlerStore(s, c, s.mem.handlers[c], ok).value;
    if h.Renaming? && ok {
      RenameDurable(s, c, h.e);
    } else {
      HandlerMovesDurable(s, s', c, s'.mem.handlers[c]);
    }
  }

  lemma KeptSameFiles(s: Sys, d: Disk)
    requires SentKept(s.log.sent, s.disk, s.log.receipts, s.log.orig)
    requires d.queue == s.disk.queue && d.failed == s.disk.failed
    ensures SentKept(s.log.sent, d, s.log.receipts, s.log.orig)
  {
  }

  lemma RenameDurable(s: Sys, c: Conn, e: QueueEntry)
    requires Shape(s) && Durable(s) && s.phase.Up? && c in s.mem.handlers && s.mem.handlers[c] == Renaming(e)
    ensures e.id in s.disk.temps && Durable(At(OnDisk(s, RenameTemp(s.disk, e.id)), c, Checking(e)))
  {
    var s' := At(OnDisk(s, RenameTemp(s.disk, e.id)), c, Checking(e));
    assert HandlerOk(s.mem.handlers[c], s.log.orig) && !Beyond(s.mem.entries, s.mem.channel, s.mem.pc, e.id);
    QueueFrame(s, s'.disk.queue, e.id);
    KeptSameFiles(s.(disk := s.disk.(queue := s'.disk.queue)), s'.disk);
    assert HandlersOnDisk(s'.mem.handlers, s'.disk.queue);
    assert HeldOnDisk(s'.mem.entries, s'.mem.pc, s'.disk);
  }

  lemma RemoveDurable(s: Sys, c: Conn, e: QueueEntry)
    requires Shape(s) && Durable(s) && s.phase.Up? && c in s.mem.handlers && s.mem.handlers[c] == Removing(e)
    ensures Durable(At(OnDisk(s, Unlink(s.disk, e.id)), c, Refusing(e.id)))
  {
    var s' := At(OnDisk(s, Unlink(s.disk, e.id)), c, Refusing(e.id));
    assert HandlerOk(s.mem.handlers[c], s.log.orig) && !Beyond(s.mem.entries, s.mem.channel, s.mem.pc, e.id);
    QueueFrame(s, s'.disk.queue, e.id);
    assert HandlersOnDisk(s'.mem.handlers, s'.disk.queue);
  }

  lemma PushDurable(s: Sys, c: Conn, e: QueueEntry)
    requires Shape(s) && Durable(s) && s.phase.Up? && c in s.mem.handlers && s.mem.handlers[c] == Sending(e)
    ensures Durable(s.(mem := s.mem.(channel := s.mem.channel + [e], handlers := s.mem.handlers[c := Acking(e.id)]),
                       log := s.log.(sent := s.log.sent + {e.id})))
  {
  }

  lemma SubmitDurable(s: Sys, c: Conn, ok: bool)
    requires Shape(s) && Durable(s) && s.phase.Up? && c in s.mem.handlers
    requires HandlerSubmit(s, c, s.mem.handlers[c], ok).Some?
    ensures Durable(HandlerSubmit(s, c, s.mem.handlers[c], ok).value)
  {
    var h := s.mem.handlers[c];
    if h.Removing? && ok {
      RemoveDurable(s, c, h.e);
    } else if h.Sending? && s.mem.pc != Stopped {
      PushDurable(s, c, h.e);
    } else {
      var s' := HandlerSubmit(s, c, h, ok).value;
      SubmitIsQuiet(s, c, h, ok);
      HandlerMovesDurable(s, s', c, Quieted(s, h));
    }
  }

  /** Stored, or rejected: what the handler `h` becomes when it neither sends nor removes. */
  function Quieted(s: Sys, h: Handler): Handler {
    match h
    case Checking(e) =>
      if s.config.maxQueueSize > 0 && s.mem.pending >= s.config.maxQueueSize then Removing(e) else Sending(e)
    case Sending(e) => Removing(e)
    case Removing(e) => Refusing(e.id)
    case _ => Idle
  }

  lemma SubmitIsQuiet(s: Sys, c: Conn, h: Handler, ok: bool)
    requires h.Acking? ==> h.id in s.log.sent
    requires s.log.acked <= s.log.sent && HandlerSubmit(s, c, h, ok).Some?
    requires !(h.Removing? && ok) && !(h.Sending? && s.mem.pc != Stopped)
    ensures QuietMove(s, HandlerSubmit(s, c, h, ok).value, c, Quieted(s, h))
  {
    match h {
      case Checking(_) =>
      case Sending(_) =>
      case Removing(_) =>
      case Acking(_) =>
      case Refusing(_) =>
    }
  }

  lemma HandlerDurable(s: Sys, c: Conn, a: HandlerAct)
    requires Shape(s) && Durable(s) && HandlerStep(s, c, a).Some?
    ensures Durable(HandlerStep(s, c, a).value)
  {
    if a.Proceed? {
      if Owns(s.mem.handlers[c]) && !Stored(s.mem.handlers[c]) {
        StoreDurable(s, c, a.ok);
      } else {
        SubmitDurable(s, c, a.ok);
      }
    } else if a.Receive? {
      ReceiveDurable(s, c, a.e, a.request);
    } else {
      assert HandlersOnDisk(HandlerStep(s, c, a).value.mem.handlers, s.disk.queue);
    }
  }

  lemma ReceiveDurable(s: Sys, c: Conn, e: QueueEntry, request: NotifyRequest)
    requires Shape(s) && Durable(s) && HandlerStep(s, c, Receive(e, request)).Some?
    ensures Durable(HandlerStep(s, c, Receive(e, request)).value)
  {
  }

  // ----- the worker -----

  lemma InsertDurable(s: Sys, draining: bool)
    requires Shape(s) && Durable(s) && s.phase.Up? && s.mem.channel != []
    requires s.mem.pc == Draining || s.mem.pc == Waiting
    ensures Durable(Insert(s, draining))
  {
  }

  lemma TakeDurable(s: Sys, a: WorkerAct)
    requires Shape(s) && Durable(s) && s.phase.Up? && WorkerTake(s, a).Some?
    ensures Durable(WorkerTake(s, a).value)
  {
    var pc := s.mem.pc;
    if s.mem.channel != [] && (pc.Draining? || (pc.Waiting? && a.TakeArrival?)) {
      InsertDurable(s, pc.Draining?);
    } else {
      var s' := WorkerTake(s, a).value;
      assert s'.mem.entries == s.mem.entries && s'.disk == s.disk && s'.log == s.log;
    }
  }

  lemma AcceptedDurable(s: Sys, e: QueueEntry, target: Target, k: nat)
    requires Shape(s) && Durable(s) && s.mem.pc == Talking(e, target, k) && k < |ChunksOf(e, target)|
    ensures Durable(ChunkAccepted(s, e, target, k))
  {
    var s' := ChunkAccepted(s, e, target, k);
    if s'.log.receipts != s.log.receipts {
      var r := s'.log.receipts[|s.log.receipts|];
      DeliveriesPush(s.log.receipts, r, e.id);
      forall id | id in s.log.sent ensures Kept(s.disk, s'.log.receipts, s.log.orig[id]) {
        assert Kept(s.disk, s.log.receipts, s.log.orig[id]);
        DeliveriesPush(s.log.receipts, r, id);
      }
    }
  }

  lemma RejectedDurable(s: Sys, e: QueueEntry, target: Target, k: nat, error: SendError)
    requires Shape(s) && Durable(s) && s.mem.pc == Talking(e, target, k) && k < |ChunksOf(e, target)|
    ensures Durable(ChunkRejected(s, e, target, k, error))
  {
  }

  lemma TalkDurable(s: Sys, a: WorkerAct)
    requires Shape(s) && Durable(s) && s.phase.Up? && WorkerTalk(s, a).Some?
    ensures Durable(WorkerTalk(s, a).value)
  {
    match s.mem.pc {
      case Picking => PickDurable(s, a);
      case Talking(e, target, k) =>
        if k < |ChunksOf(e, target)| {
          if a.reply.Accepted? {
            AcceptedDurable(s, e, target, k);
          } else {
            RejectedDurable(s, e, target, k, a.reply.error);
          }
        } else {
          ForgetDurable(s, e, target, k);
        }
      case Unlinking(id) => UnlinkDurable(s, id, a.ok);
      case Counting(id) =>
    }
  }

  lemma PickDurable(s: Sys, a: WorkerAct)
    requires Shape(s) && Durable(s) && s.mem.pc == Picking && WorkerTalk(s, a).Some?
    ensures Durable(WorkerTalk(s, a).value)
  {
    match a {
      case Pick(e, Some(target), _) => TelegramClient.ChunksExist(Escaping.BodyOf(e.message, target));
      case Pick(_, None, _) =>
      case Go(_) =>
    }
  }

  lemma ForgetDurable(s: Sys, e: QueueEntry, target: Target, k: nat)
    requires Shape(s) && Durable(s) && s.mem.pc == Talking(e, target, k) && k == |ChunksOf(e, target)|
    ensures Durable(s.(mem := s.mem.(entries := s.mem.entries - {e.id}, pc := Unlinking(e.id))))
  {
  }

  lemma UnlinkDurable(s: Sys, id: Id, ok: bool)
    requires Shape(s) && Durable(s) && s.mem.pc == Unlinking(id)
    ensures Durable(Pc(if ok then OnDisk(s, Unlink(s.disk, id)) else Fault(s, id), Counting(id)))
  {
    var d := Unlink(s.disk, id);
    QueueFrame(s, d.queue, id);
    forall i | 0 <= i < |s.mem.channel| ensures s.mem.channel[i].id != id {
      assert !Leaving(s.mem.pc, s.mem.channel[i].id);
    }
    forall c | c in s.mem.handlers && Owns(s.mem.handlers[c]) ensures s.mem.handlers[c].e.id != id {
      assert !Beyond(s.mem.entries, s.mem.channel, s.mem.pc, s.mem.handlers[c].e.id);
    }
    assert HeldOnDisk(s.mem.entries, Counting(id), d);
  }

  /** The held entry the worker is burying or rescheduling is nobody else's. */
  lemma HeldAlone(s: Sys, id: Id)
    requires Shape(s) && id in s.mem.entries
    ensures !InChannel(s.mem.channel, id) && !Owned(s.mem.handlers, id)
  {
  }

  lemma BuryWriteDurable(s: Sys, e: QueueEntry, d: Disk, pc: WorkerPc)
    requires Shape(s) && Durable(s) && Burying(s.mem.pc) && !s.mem.pc.Dropping? && s.mem.pc.e == e
    requires (d == OpenFailed(s.disk, e) && pc == DeadWriting(e))
             || (d == FillFailed(s.disk, e) && pc == DeadUnlinking(e))
    ensures Durable(Pc(OnDisk(s, d), pc))
  {
    assert e.id in s.disk.queue;
    FailedFrame(s, d.failed, e);
    assert HeldOnDisk(s.mem.entries, pc, d);
  }

  lemma BuryUnlinkDurable(s: Sys, e: QueueEntry)
    requires Shape(s) && Durable(s) && s.mem.pc == DeadUnlinking(e)
    ensures Durable(Pc(OnDisk(s, Unlink(s.disk, e.id)), Dropping(e)))
  {
    var d := Unlink(s.disk, e.id);
    HeldAlone(s, e.id);
    QueueFrame(s, d.queue, e.id);
    assert SetAsideAs(d.failed, s.log.orig[e.id]) by {
      assert BuriedFile(d.failed, e) && FailedNameOf(e) == FailedNameOf(s.log.orig[e.id]);
    }
    assert HeldOnDisk(s.mem.entries, Dropping(e), d);
  }

  lemma BuryDurable(s: Sys, ok: bool)
    requires Shape(s) && Durable(s) && s.phase.Up? && WorkerBury(s, ok).Some?
    ensures Durable(WorkerBury(s, ok).value)
  {
    var e := s.mem.pc.e;
    match s.mem.pc {
      case DeadOpening(_) =>
        if ok {
          BuryWriteDurable(s, e, OpenFailed(s.disk, e), DeadWriting(e));
        }
      case DeadWriting(_) =>
        if ok {
          BuryWriteDurable(s, e, FillFailed(s.disk, e), DeadUnlinking(e));
        }
      case DeadUnlinking(_) =>
        if ok {
          BuryUnlinkDurable(s, e);
        }
      case Dropping(_) =>
        assert HeldOnDisk(s.mem.entries - {e.id}, Forgotten, s.disk);
    }
  }

  lemma RetryRenameDurable(s: Sys, e: QueueEntry)
    requires Shape(s) && Durable(s) && s.mem.pc == RetryRenaming(e)
    ensures e.id in s.disk.temps && Durable(Pc(OnDisk(s, RenameTemp(s.disk, e.id)), Reinserting(e)))
  {
  }

  lemma RetryDurable(s: Sys, ok: bool)
    requires Shape(s) && Durable(s) && s.phase.Up? && WorkerRetry(s, ok).Some?
    ensures Durable(WorkerRetry(s, ok).value)
  {
    var s', e := WorkerRetry(s, ok).value, s.mem.pc.e;
    if s.mem.pc.RetryRenaming? && ok {
      RetryRenameDurable(s, e);
    } else {
      assert s'.disk.queue == s.disk.queue && s'.disk.failed == s.disk.failed;
      KeptSameFiles(s, s'.disk);
      assert HeldOnDisk(s'.mem.entries, s'.mem.pc, s'.disk);
    }
  }

  // ----- the process -----

  lemma LoadDurable(s: Sys, name: DirName, readable: bool, movable: bool)
    requires Shape(s) && Durable(s) && s.phase.Booting? && name in s.phase.todo && (name.Final? || name.Temp?)
    ensures Durable(LoadName(s, name, readable, movable))
  {
    var s' := LoadName(s, name, readable, movable);
    if name.Final? && name.id in s.disk.queue && !readable && movable {
      QuarantineKeeps(s, name.id);
    } else {
      assert s'.disk.queue == s.disk.queue && s'.disk.failed == s.disk.failed;
      KeptSameFiles(s, s'.disk);
    }
  }

  lemma QuarantineKeeps(s: Sys, x: Id)
    requires Shape(s) && SentKept(s.log.sent, s.disk, s.log.receipts, s.log.orig) && x in s.disk.queue
    ensures SentKept(s.log.sent, Quarantine(s.disk, x), s.log.receipts, s.log.orig)
  {
    var d := Quarantine(s.disk, x);
    forall id | id in s.log.sent ensures Kept(d, s.log.receipts, s.log.orig[id]) {
      var o := s.log.orig[id];
      assert Kept(s.disk, s.log.receipts, o) && o.id == id;
      if id == x {
        assert Quarantined(x) in d.failed && d.failed[Quarantined(x)].entry.SameMessage(o);
      } else if SetAsideAs(s.disk.failed, o) {
        var name :| name in s.disk.failed && s.disk.failed[name].Complete? && s.disk.failed[name].entry.SameMessage(o)
                    && (name == FailedNameOf(o) || name == Quarantined(o.id));
        assert name in d.failed && d.failed[name] == s.disk.failed[name];
      }
    }
  }

  lemma ProcessDurable(s: Sys, a: ProcessAct)
    requires Shape(s) && Durable(s) && ProcessStep(s, a).Some?
    ensures Durable(ProcessStep(s, a).value)
  {
    if a.Load? {
      LoadDurable(s, a.name, a.readable, a.movable);
    }
  }

  lemma StepDurable(s: Sys, a: Action)
    requires Shape(s) && Durable(s) && Step(s, a).Some?
    ensures Durable(Step(s, a).value)
  {
    match a {
      case OfHandler(c, ha) => HandlerDurable(s, c, ha);
      case OfProcess(pa) => ProcessDurable(s, pa);
      case OfWorker(wa) =>
        if Burying(s.mem.pc) {
          BuryDurable(s, wa.ok);
        } else if Retrying(s.mem.pc) {
          RetryDurable(s, wa.ok);
        } else if Speaking(s.mem.pc) {
          TalkDurable(s, wa);
        } else {
          TakeDurable(s, wa);
        }
    }
  }
}
