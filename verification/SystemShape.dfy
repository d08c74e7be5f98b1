/**
  Who holds what: every accepted id is in at most one place of the process memory, and
  the worker's program counter agrees with the entries it holds. All later invariants
  rest on this one.
*/
module SystemShape {
  import opened Messages
  import opened QueueStore
  import opened RetryPolicy
  import opened System

  // ----- places -----

  /** The handler holds an entry it has not handed over. */
  predicate Owns(h: Handler) {
    h.Opening? || h.Writing? || h.Renaming? || h.Checking? || h.Sending? || h.Removing?
  }

  /** ... and that entry's file is in the queue directory. */
  predicate Stored(h: Handler) {
    h.Checking? || h.Sending? || h.Removing?
  }

  ghost predicate InChannel(channel: seq<QueueEntry>, id: Id) {
    exists i :: 0 <= i < |channel| && channel[i].id == id
  }

  ghost predicate Owned(handlers: map<Conn, Handler>, id: Id) {
    exists c :: c in handlers && Owns(handlers[c]) && handlers[c].e.id == id
  }

  /** Delivered, no longer held, file perhaps not removed yet. */
  predicate Leaving(pc: WorkerPc, id: Id) {
    (pc.Unlinking? || pc.Counting?) && pc.id == id
  }

  // ----- the invariant -----

  ghost predicate OrigKeyed(orig: map<Id, QueueEntry>) {
    forall id :: id in orig ==> orig[id].id == id
  }

  ghost predicate IsCopy(orig: map<Id, QueueEntry>, e: QueueEntry) {
    e.id in orig && e.SameMessage(orig[e.id])
  }

  ghost predicate HandlerOk(h: Handler, orig: map<Id, QueueEntry>) {
    && (Owns(h) ==> h.e.id in orig && h.e == orig[h.e.id])
    && (h.Acking? || h.Refusing? ==> h.id in orig)
  }

  ghost predicate HandlersOk(handlers: map<Conn, Handler>, orig: map<Id, QueueEntry>) {
    forall c :: c in handlers ==> HandlerOk(handlers[c], orig)
  }

  ghost predicate OwnersDiffer(handlers: map<Conn, Handler>) {
    forall c, d :: c in handlers && d in handlers && c != d && Owns(handlers[c]) && Owns(handlers[d]) ==>
      handlers[c].e.id != handlers[d].e.id
  }

  ghost predicate ChannelOk(channel: seq<QueueEntry>, orig: map<Id, QueueEntry>) {
    && (forall i :: 0 <= i < |channel| ==> channel[i].id in orig && channel[i] == orig[channel[i].id])
    && (forall i, j :: 0 <= i < j < |channel| ==> channel[i].id != channel[j].id)
  }

  ghost predicate EntriesOk(entries: map<Id, QueueEntry>, orig: map<Id, QueueEntry>) {
    forall id :: id in entries ==> entries[id].id == id && IsCopy(orig, entries[id])
  }

  /** What no handler holds: entries of the worker, of the channel, or on their way out. */
  ghost predicate Beyond(entries: map<Id, QueueEntry>, channel: seq<QueueEntry>, pc: WorkerPc, id: Id) {
    id in entries || InChannel(channel, id) || Leaving(pc, id)
  }

  ghost predicate HandlersApart(handlers: map<Conn, Handler>, entries: map<Id, QueueEntry>, channel: seq<QueueEntry>,
                                pc: WorkerPc)
  {
    forall c :: c in handlers && Owns(handlers[c]) ==> !Beyond(entries, channel, pc, handlers[c].e.id)
  }

  ghost predicate ChannelApart(entries: map<Id, QueueEntry>, channel: seq<QueueEntry>, pc: WorkerPc) {
    forall i :: 0 <= i < |channel| ==> channel[i].id !in entries && !Leaving(pc, channel[i].id)
  }

  ghost predicate PcOk(pc: WorkerPc, entries: map<Id, QueueEntry>, channel: seq<QueueEntry>,
                       orig: map<Id, QueueEntry>)
  {
    && (pc.Inserted? ==> pc.id in entries)
    && (pc.Talking? ==> pc.e.id in entries && entries[pc.e.id] == pc.e && pc.k <= |ChunksOf(pc.e, pc.target)|)
    && (pc.Unlinking? || pc.Counting? ==> pc.id in orig && pc.id !in entries)
    && (Burying(pc) || Retrying(pc) ==> pc.e.id in entries && IsCopy(orig, pc.e))
    && (pc.Stopped? ==> channel == [])
  }

  ghost predicate QueueFilesOk(queue: map<Id, File>, orig: map<Id, QueueEntry>) {
    forall id :: id in queue ==> queue[id].Complete? && queue[id].entry.id == id && IsCopy(orig, queue[id].entry)
  }

  /** The temporary file about to be renamed is complete. */
  ghost predicate TempsOk(handlers: map<Conn, Handler>, pc: WorkerPc, temps: map<Id, File>) {
    && (forall c :: c in handlers && handlers[c].Renaming? ==>
          handlers[c].e.id in temps && temps[handlers[c].e.id] == Complete(handlers[c].e))
    && (pc.RetryRenaming? ==> pc.e.id in temps && temps[pc.e.id] == Complete(pc.e))
  }

  ghost predicate Places(m: Mem, orig: map<Id, QueueEntry>) {
    && HandlersOk(m.handlers, orig)
    && OwnersDiffer(m.handlers)
    && ChannelOk(m.channel, orig)
    && EntriesOk(m.entries, orig)
    && HandlersApart(m.handlers, m.entries, m.channel, m.pc)
    && ChannelApart(m.entries, m.channel, m.pc)
    && PcOk(m.pc, m.entries, m.channel, orig)
  }

  /** Memory is empty while the process is down, and holds only files already read while it loads. */
  ghost predicate BootOk(phase: Phase, entries: map<Id, QueueEntry>) {
    && (phase.Down? ==> entries == map[])
    && (phase.Booting? ==> forall id :: id in entries ==> Final(id) !in phase.todo)
  }

  ghost predicate Shape(s: Sys) {
    && BootOk(s.phase, s.mem.entries)
    && (!s.phase.Up? ==> s.mem.handlers == map[] && s.mem.channel == [] && s.mem.pc == Stopped)
    && OrigKeyed(s.log.orig)
    && Places(s.mem, s.log.orig)
    && QueueFilesOk(s.disk.queue, s.log.orig)
    && TempsOk(s.mem.handlers, s.mem.pc, s.disk.temps)
  }

  lemma OwnedAfter(handlers: map<Conn, Handler>, c: Conn, h: Handler, id: Id)
    requires Owned(handlers[c := h], id)
    ensures Owned(handlers, id) || (Owns(h) && h.e.id == id)
  {
  }

  // ----- preservation -----

  /** A handler moves on with the entry it already holds, or lets go of it. */
  lemma HandlerMoves(m: Mem, orig: map<Id, QueueEntry>, c: Conn, h: Handler)
    requires Places(m, orig) && c in m.handlers && HandlerOk(h, orig)
    requires Owns(h) ==> Owns(m.handlers[c]) && h.e == m.handlers[c].e
    ensures Places(m.(handlers := m.handlers[c := h]), orig)
  {
  }

  lemma HandlerStoreShape(s: Sys, c: Conn, ok: bool)
    requires Shape(s) && s.phase.Up? && c in s.mem.handlers
    requires HandlerStore(s, c, s.mem.handlers[c], ok).Some?
    ensures Shape(HandlerStore(s, c, s.mem.handlers[c], ok).value)
  {
    var h, s' := s.mem.handlers[c], HandlerStore(s, c, s.mem.handlers[c], ok).value;
    HandlerMoves(s.mem, s.log.orig, c, s'.mem.handlers[c]);
    HandlerStoreDisk(s, c, ok);
  }

  lemma HandlerStoreDisk(s: Sys, c: Conn, ok: bool)
    requires Shape(s) && s.phase.Up? && c in s.mem.handlers
    requires HandlerStore(s, c, s.mem.handlers[c], ok).Some?
    ensures var s' := HandlerStore(s, c, s.mem.handlers[c], ok).value;
            && QueueFilesOk(s'.disk.queue, s.log.orig)
            && TempsOk(s'.mem.handlers, s'.mem.pc, s'.disk.temps)
  {
    var h, s' := s.mem.handlers[c], HandlerStore(s, c, s.mem.handlers[c], ok).value;
    var id := h.e.id;
    assert HandlerOk(h, s.log.orig);
    assert !Beyond(s.mem.entries, s.mem.channel, s.mem.pc, id);
    assert s.mem.pc.RetryRenaming? ==> s.mem.pc.e.id != id;
    assert forall k :: k != id ==> (k in s'.disk.temps <==> k in s.disk.temps);
    assert forall k :: k != id && k in s.disk.temps ==> s'.disk.temps[k] == s.disk.temps[k];
  }

  lemma HandlerSubmitShape(s: Sys, c: Conn, ok: bool)
    requires Shape(s) && s.phase.Up? && c in s.mem.handlers
    requires HandlerSubmit(s, c, s.mem.handlers[c], ok).Some?
    ensures Shape(HandlerSubmit(s, c, s.mem.handlers[c], ok).value)
  {
    var h, s' := s.mem.handlers[c], HandlerSubmit(s, c, s.mem.handlers[c], ok).value;
    assert HandlerOk(h, s.log.orig);
    assert TempsOk(s'.mem.handlers, s'.mem.pc, s'.disk.temps);
    if s'.mem.channel == s.mem.channel {
      HandlerMoves(s.mem, s.log.orig, c, s'.mem.handlers[c]);
    } else {
      PushShape(s.mem, s.log.orig, c, h.e);
    }
  }

  lemma PushShape(m: Mem, orig: map<Id, QueueEntry>, c: Conn, e: QueueEntry)
    requires Places(m, orig) && c in m.handlers && m.handlers[c] == Sending(e) && m.pc != Stopped
    ensures Places(m.(channel := m.channel + [e], handlers := m.handlers[c := Acking(e.id)]), orig)
  {
  }

  lemma PushMembers(channel: seq<QueueEntry>, e: QueueEntry, id: Id)
    ensures InChannel(channel + [e], id) <==> InChannel(channel, id) || id == e.id
  {
    var longer := channel + [e];
    if id == e.id {
      assert longer[|channel|].id == id;
    }
    if i :| 0 <= i < |channel| && channel[i].id == id {
      assert longer[i].id == id;
    }
  }

  lemma HandlerShape(s: Sys, c: Conn, a: HandlerAct)
    requires Shape(s) && HandlerStep(s, c, a).Some?
    ensures Shape(HandlerStep(s, c, a).value)
  {
    match a {
      case Proceed(ok) =>
        if Owns(s.mem.handlers[c]) && !Stored(s.mem.handlers[c]) {
          HandlerStoreShape(s, c, ok);
        } else {
          HandlerSubmitShape(s, c, ok);
        }
      case Receive(e, request) => ReceiveShape(s, c, e, request);
      case Connect => ConnectShape(s, c);
      case Disconnect => ConnectShape(s, c);
    }
  }

  lemma ConnectShape(s: Sys, c: Conn)
    requires Shape(s)
    ensures HandlerStep(s, c, Connect).Some? ==> Shape(HandlerStep(s, c, Connect).value)
    ensures HandlerStep(s, c, Disconnect).Some? ==> Shape(HandlerStep(s, c, Disconnect).value)
  {
  }

  /** Creating an entry disturbs nobody who holds older ones. */
  lemma OrigGrows(m: Mem, orig: map<Id, QueueEntry>, e: QueueEntry)
    requires Places(m, orig) && e.id !in orig
    ensures Places(m, orig[e.id := e])
    ensures !Beyond(m.entries, m.channel, m.pc, e.id) && !Owned(m.handlers, e.id)
  {
  }

  lemma ReceiveShape(s: Sys, c: Conn, e: QueueEntry, request: NotifyRequest)
    requires Shape(s) && HandlerStep(s, c, Receive(e, request)).Some?
    ensures Shape(HandlerStep(s, c, Receive(e, request)).value)
  {
    var s' := HandlerStep(s, c, Receive(e, request)).value;
    OrigGrows(s.mem, s.log.orig, e);
    ReceivePlaces(s.mem, s'.log.orig, c, e);
    assert TempsOk(s'.mem.handlers, s'.mem.pc, s'.disk.temps);
    assert QueueFilesOk(s'.disk.queue, s'.log.orig);
  }

  lemma ReceivePlaces(m: Mem, orig: map<Id, QueueEntry>, c: Conn, e: QueueEntry)
    requires Places(m, orig) && c in m.handlers && e.id in orig && orig[e.id] == e
    requires !Beyond(m.entries, m.channel, m.pc, e.id) && !Owned(m.handlers, e.id)
    ensures Places(m.(handlers := m.handlers[c := Opening(e)]), orig)
  {
  }

  lemma InsertShape(s: Sys, draining: bool)
    requires Shape(s) && s.phase.Up? && s.mem.channel != [] && (s.mem.pc == Draining || s.mem.pc == Waiting)
    ensures Shape(Insert(s, draining))
  {
    var m, orig := s.mem, s.log.orig;
    var m' := Insert(s, draining).mem;
    assert forall i :: 0 <= i < |m'.channel| ==> m'.channel[i] == m.channel[i + 1];
    assert ChannelOk(m'.channel, orig);
    assert EntriesOk(m'.entries, orig);
    assert ChannelApart(m'.entries, m'.channel, m'.pc);
    forall c | c in m.handlers && Owns(m.handlers[c])
      ensures !Beyond(m'.entries, m'.channel, m'.pc, m.handlers[c].e.id)
    {
      PopMembers(m.channel, m.handlers[c].e.id);
    }
  }

  lemma PopMembers(channel: seq<QueueEntry>, id: Id)
    requires channel != []
    ensures InChannel(channel, id) <==> InChannel(channel[1..], id) || id == channel[0].id
  {
  }

  /** The worker changes its counter or drops an entry: nothing new is held anywhere. */
  ghost predicate WorkerMove(m: Mem, m': Mem, orig: map<Id, QueueEntry>) {
    && m'.handlers == m.handlers && m'.channel == m.channel
    && m'.entries.Keys <= m.entries.Keys && EntriesOk(m'.entries, orig)
    && (m'.pc.Unlinking? || m'.pc.Counting? ==> m'.pc.id in m.entries || Leaving(m.pc, m'.pc.id))
    && PcOk(m'.pc, m'.entries, m'.channel, orig)
  }

  lemma WorkerMoves(m: Mem, m': Mem, orig: map<Id, QueueEntry>)
    requires Places(m, orig) && WorkerMove(m, m', orig)
    ensures Places(m', orig)
  {
  }

  lemma DropEntry(entries: map<Id, QueueEntry>, orig: map<Id, QueueEntry>, id: Id)
    requires EntriesOk(entries, orig)
    ensures EntriesOk(entries - {id}, orig)
  {
  }

  lemma TempsKept(s: Sys, s': Sys)
    requires Shape(s) && s'.mem.handlers == s.mem.handlers && s'.disk.temps == s.disk.temps && !s'.mem.pc.RetryRenaming?
    ensures TempsOk(s'.mem.handlers, s'.mem.pc, s'.disk.temps)
  {
  }

  lemma WorkerTakeShape(s: Sys, a: WorkerAct)
    requires Shape(s) && s.phase.Up? && WorkerTake(s, a).Some?
    ensures Shape(WorkerTake(s, a).value)
  {
    var pc := s.mem.pc;
    if pc.Waiting? && a.Stop? {
      StopShape(s);
    } else if s.mem.channel != [] && (pc.Draining? || (pc.Waiting? && a.TakeArrival?)) {
      InsertShape(s, pc.Draining?);
    } else {
      var s' := WorkerTake(s, a).value;
      PcMoveShape(s, s'.mem.pending, s'.mem.pc);
    }
  }

  /** Only the program counter and the published count change. */
  lemma PcMoveShape(s: Sys, pending: nat, pc: WorkerPc)
    requires Shape(s) && s.phase.Up?
    requires pc == Head || pc == Draining || pc == Waiting || pc == Picking || pc == Forgotten
    ensures Shape(s.(mem := s.mem.(pending := pending, pc := pc)))
  {
  }

  lemma StopShape(s: Sys)
    requires Shape(s) && s.phase.Up? && s.mem.pc == Waiting
    ensures Shape(s.(mem := s.mem.(channel := [], pc := Stopped)))
  {
  }

  lemma DecidedIsCopy(s: Sys, e: QueueEntry, error: SendError)
    requires IsCopy(s.log.orig, e)
    ensures match Decide(s.config.retry, e, error, s.clock)
            case GiveUp(dead) => dead.id == e.id && IsCopy(s.log.orig, dead)
            case Retry(next, _) => next.id == e.id && IsCopy(s.log.orig, next)
  {
  }

  lemma AnswerShape(s: Sys, reply: TelegramClient.Reply)
    requires Shape(s) && s.phase.Up? && s.mem.pc.Talking? && WorkerTalk(s, Answer(reply)).Some?
    ensures Shape(WorkerTalk(s, Answer(reply)).value)
  {
    var s' := WorkerTalk(s, Answer(reply)).value;
    AnswerPc(s, reply);
    TempsKept(s, s');
    WorkerMoves(s.mem, s'.mem, s.log.orig);
  }

  lemma AnswerPc(s: Sys, reply: TelegramClient.Reply)
    requires Shape(s) && s.phase.Up? && s.mem.pc.Talking? && WorkerTalk(s, Answer(reply)).Some?
    ensures var s' := WorkerTalk(s, Answer(reply)).value;
            && s' == s.(mem := s.mem.(pc := s'.mem.pc), log := s'.log)
            && s'.log.orig == s.log.orig
            && PcOk(s'.mem.pc, s.mem.entries, s.mem.channel, s.log.orig)
            && (s'.mem.pc.Talking? || s'.mem.pc.DeadOpening? || s'.mem.pc.RetryOpening?)
  {
    var e := s.mem.pc.e;
    assert IsCopy(s.log.orig, e);
    if reply.Rejected? {
      DecidedIsCopy(s, e, reply.error);
    }
  }

  lemma PickShape(s: Sys, a: WorkerAct)
    requires Shape(s) && s.phase.Up? && s.mem.pc.Picking? && WorkerTalk(s, a).Some?
    ensures Shape(WorkerTalk(s, a).value)
  {
    if a.Pick? {
      PickedShape(s, a.entry, if a.resolution.Some? then Talking(a.entry, a.resolution.value, 0)
                              else DeadOpening(WorkerLoop.WithReason(a.entry, Unresolvable(a.detail))),
                                  WorkerTalk(s, a).value);
    } else {
      TempsKept(s, Pc(s, Head));
      WorkerMoves(s.mem, Pc(s, Head).mem, s.log.orig);
    }
  }

  lemma PickedShape(s: Sys, e: QueueEntry, pc: WorkerPc, s': Sys)
    requires Shape(s) && s.phase.Up? && s.mem.pc.Picking? && e.id in s.mem.entries && s.mem.entries[e.id] == e
    requires (pc.Talking? && pc.e == e && pc.k == 0) || (pc.DeadOpening? && IsCopy(s.log.orig, pc.e) && pc.e.id == e.id)
    requires s'.mem == s.mem.(pc := pc) && s'.disk == s.disk && s'.log.orig == s.log.orig && s'.phase == s.phase
    ensures Shape(s')
  {
    TempsKept(s, s');
    WorkerMoves(s.mem, s'.mem, s.log.orig);
  }

  lemma ForgetShape(s: Sys, ok: bool)
    requires Shape(s) && s.phase.Up? && !s.mem.pc.Picking? && WorkerTalk(s, Go(ok)).Some?
    ensures Shape(WorkerTalk(s, Go(ok)).value)
  {
    var s' := WorkerTalk(s, Go(ok)).value;
    if s.mem.pc.Talking? {
      assert IsCopy(s.log.orig, s.mem.pc.e);
      DropEntry(s.mem.entries, s.log.orig, s.mem.pc.e.id);
    }
    TempsKept(s, s');
    WorkerMoves(s.mem, s'.mem, s.log.orig);
  }

  lemma WorkerTalkShape(s: Sys, a: WorkerAct)
    requires Shape(s) && s.phase.Up? && WorkerTalk(s, a).Some?
    ensures Shape(WorkerTalk(s, a).value)
  {
    if s.mem.pc.Picking? {
      PickShape(s, a);
    } else if a.Answer? {
      AnswerShape(s, a.reply);
    } else {
      ForgetShape(s, a.ok);
    }
  }

  lemma WorkerBuryShape(s: Sys, ok: bool)
    requires Shape(s) && s.phase.Up? && WorkerBury(s, ok).Some?
    ensures Shape(WorkerBury(s, ok).value)
  {
    var s' := WorkerBury(s, ok).value;
    DropEntry(s.mem.entries, s.log.orig, s.mem.pc.e.id);
    assert PcOk(s'.mem.pc, s'.mem.entries, s'.mem.channel, s.log.orig);
    TempsKept(s, s');
    WorkerMoves(s.mem, s'.mem, s.log.orig);
  }

  lemma WorkerRetryShape(s: Sys, ok: bool)
    requires Shape(s) && s.phase.Up? && WorkerRetry(s, ok).Some?
    ensures Shape(WorkerRetry(s, ok).value)
  {
    var s' := WorkerRetry(s, ok).value;
    RetryDisk(s, ok);
    RetryPlaces(s, ok);
  }

  lemma RetryPlaces(s: Sys, ok: bool)
    requires Shape(s) && s.phase.Up? && WorkerRetry(s, ok).Some?
    ensures var s' := WorkerRetry(s, ok).value;
            Places(s'.mem, s.log.orig) && s'.log.orig == s.log.orig && s'.phase == s.phase
  {
    var s', e := WorkerRetry(s, ok).value, s.mem.pc.e;
    if s.mem.pc.Reinserting? {
      ReinsertPlaces(s.mem, s.log.orig, e);
    } else {
      assert s'.mem.entries == s.mem.entries;
      assert PcOk(s'.mem.pc, s.mem.entries, s.mem.channel, s.log.orig);
      WorkerMoves(s.mem, s'.mem, s.log.orig);
    }
  }

  lemma ReinsertPlaces(m: Mem, orig: map<Id, QueueEntry>, e: QueueEntry)
    requires Places(m, orig) && m.pc == Reinserting(e)
    ensures Places(m.(entries := m.entries[e.id := e], pc := Head), orig)
  {
  }

  lemma RetryDisk(s: Sys, ok: bool)
    requires Shape(s) && s.phase.Up? && WorkerRetry(s, ok).Some?
    ensures var s' := WorkerRetry(s, ok).value;
            && QueueFilesOk(s'.disk.queue, s.log.orig)
            && TempsOk(s'.mem.handlers, s'.mem.pc, s'.disk.temps)
  {
    var s', id := WorkerRetry(s, ok).value, s.mem.pc.e.id;
    forall c | c in s.mem.handlers && s.mem.handlers[c].Renaming? ensures s.mem.handlers[c].e.id != id {
      assert !Beyond(s.mem.entries, s.mem.channel, s.mem.pc, s.mem.handlers[c].e.id);
    }
  }

  lemma LoadShape(s: Sys, name: DirName, readable: bool, movable: bool)
    requires Shape(s) && s.phase.Booting? && (name.Final? || name.Temp?)
    ensures Shape(LoadName(s, name, readable, movable))
  {
  }

  lemma ProcessShape(s: Sys, a: ProcessAct)
    requires Shape(s) && ProcessStep(s, a).Some?
    ensures Shape(ProcessStep(s, a).value)
  {
    if a.Load? {
      LoadShape(s, a.name, a.readable, a.movable);
    }
  }

  lemma StepShape(s: Sys, a: Action)
    requires Shape(s) && Step(s, a).Some?
    ensures Shape(Step(s, a).value)
  {
    match a {
      case OfHandler(c, ha) => HandlerShape(s, c, ha);
      case OfProcess(pa) => ProcessShape(s, pa);
      case OfWorker(wa) =>
        if Burying(s.mem.pc) {
          WorkerBuryShape(s, wa.ok);
        } else if Retrying(s.mem.pc) {
          WorkerRetryShape(s, wa.ok);
        } else if Speaking(s.mem.pc) {
          WorkerTalkShape(s, wa);
        } else {
          WorkerTakeShape(s, wa);
        }
    }
  }
}
