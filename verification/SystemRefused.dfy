/**
  A message answered `Error` stays rejected: unless removing its file failed, nothing
  of it is left on disk or in memory and none of it was ever sent.
*/
module SystemRefused {
  import opened Messages
  import opened QueueStore
  import opened System
  import opened SystemShape
  import opened SystemDurable
  import opened SystemEffects

  ghost predicate OnWire(wire: seq<ApiCall>, id: Id) {
    exists i :: 0 <= i < |wire| && wire[i].id == id
  }

  /** Nothing of `id` was ever handed to the worker or shown to Telegram. */
  ghost predicate NeverSent(log: Log, id: Id) {
    id !in log.sent && !OnWire(log.wire, id) && Deliveries(log.receipts, id) == 0
  }

  ghost predicate Gone(s: Sys, id: Id) {
    && NeverSent(s.log, id)
    && id !in s.disk.queue && id !in s.mem.entries && !InChannel(s.mem.channel, id) && !Owned(s.mem.handlers, id)
  }

  ghost predicate RefusedOk(s: Sys) {
    && (forall id :: id in s.log.refused ==> id in s.log.orig)
    && (forall id :: OnWire(s.log.wire, id) || Deliveries(s.log.receipts, id) > 0 ==> id in s.log.orig)
    && (forall id :: id in s.log.refused && id !in s.log.undone ==> Gone(s, id))
    && (forall c :: c in s.mem.handlers && s.mem.handlers[c].Refusing? && s.mem.handlers[c].id !in s.log.undone ==>
          Gone(s, s.mem.handlers[c].id))
    && (forall c :: c in s.mem.handlers && Owns(s.mem.handlers[c]) ==> NeverSent(s.log, s.mem.handlers[c].e.id))
  }

  lemma OnWirePush(wire: seq<ApiCall>, call: ApiCall, id: Id)
    ensures OnWire(wire + [call], id) <==> OnWire(wire, id) || call.id == id
  {
    var longer := wire + [call];
    assert longer[|wire|] == call;
    if i :| 0 <= i < |wire| && wire[i].id == id {
      assert longer[i].id == id;
    }
  }

  // ----- steps that bring nothing back -----

  /** Handlers as before; disk, entries and channel only lose ids or rearrange those already held. */
  ghost predicate NothingNew(s: Sys, s': Sys) {
    && SameRefusals(s.log, s'.log)
    && (forall id :: Gone(s, id) ==> id !in s'.disk.queue && id !in s'.mem.entries && !InChannel(s'.mem.channel, id))
    && (s'.mem.handlers == s.mem.handlers || s'.mem.handlers == map[])
  }

  lemma QuietRefused(s: Sys, s': Sys)
    requires RefusedOk(s) && NothingNew(s, s')
    requires s'.log.wire == s.log.wire && s'.log.receipts == s.log.receipts
    ensures RefusedOk(s')
  {
  }

  /** The worker talks to Telegram about an id it holds. */
  lemma TalkingRefused(s: Sys, s': Sys, x: Id, call: ApiCall)
    requires Base(s) && RefusedOk(s) && NothingNew(s, s') && s'.mem.handlers == s.mem.handlers
    requires x in s.mem.entries && call.id == x && s'.log.wire == s.log.wire + [call]
    requires forall id :: id != x ==> Deliveries(s'.log.receipts, id) == Deliveries(s.log.receipts, id)
    ensures RefusedOk(s')
  {
    forall id {
      OnWirePush(s.log.wire, call, id);
    }
    forall id | Gone(s, id) ensures Gone(s', id) {
    }
    forall c | c in s.mem.handlers && Owns(s.mem.handlers[c]) ensures NeverSent(s'.log, s.mem.handlers[c].e.id) {
      assert !Beyond(s.mem.entries, s.mem.channel, s.mem.pc, s.mem.handlers[c].e.id);
    }
  }

  // ----- handlers -----

  /** The handler of `c` moves on; its own entry apart, nothing appears anywhere. */
  lemma HandlerMovesRefused(s: Sys, s': Sys, c: Conn, h: Handler)
    requires RefusedOk(s) && c in s.mem.handlers
    requires s'.mem == s.mem.(handlers := s.mem.handlers[c := h])
    requires s'.log.wire == s.log.wire && s'.log.receipts == s.log.receipts && s'.log.sent == s.log.sent
          && s'.log.orig == s.log.orig && s.log.undone <= s'.log.undone
    requires forall id :: id in s'.disk.queue ==>
               id in s.disk.queue || (Owns(s.mem.handlers[c]) && s.mem.handlers[c].e.id == id)
    requires Owns(h) ==> Owns(s.mem.handlers[c]) && h.e == s.mem.handlers[c].e
    requires h.Refusing? && h.id !in s'.log.undone ==> Gone(s', h.id)
    requires s'.log.refused == s.log.refused + (if s.mem.handlers[c].Refusing? then {s.mem.handlers[c].id} else {})
    requires s.mem.handlers[c].Refusing? ==> s.mem.handlers[c].id in s.log.orig
    ensures RefusedOk(s')
  {
  }

  /** A handler that has let go of an entry whose file is not on disk leaves nothing behind. */
  lemma LetGo(s: Sys, queue: map<Id, File>, c: Conn, e: QueueEntry)
    requires Base(s) && RefusedOk(s) && c in s.mem.handlers && Owns(s.mem.handlers[c]) && s.mem.handlers[c].e == e
    requires e.id !in queue
    ensures NeverSent(s.log, e.id) && e.id !in s.mem.entries && !InChannel(s.mem.channel, e.id)
    ensures !Owned(s.mem.handlers[c := Refusing(e.id)], e.id)
  {
  }

  lemma StoreRefused(s: Sys, c: Conn, ok: bool)
    requires Base(s) && RefusedOk(s) && s.phase.Up? && c in s.mem.handlers
    requires HandlerStore(s, c, s.mem.handlers[c], ok).Some?
    ensures RefusedOk(HandlerStore(s, c, s.mem.handlers[c], ok).value)
  {
    var h, s' := s.mem.handlers[c], HandlerStore(s, c, s.mem.handlers[c], ok).value;
    if !ok {
      LetGo(s, s.disk.queue, c, h.e);
    }
    HandlerMovesRefused(s, s', c, s'.mem.handlers[c]);
  }

  lemma RemoveRefused(s: Sys, c: Conn, e: QueueEntry, ok: bool)
    requires Base(s) && RefusedOk(s) && s.phase.Up? && c in s.mem.handlers && s.mem.handlers[c] == Removing(e)
    ensures RefusedOk(HandlerSubmit(s, c, Removing(e), ok).value)
  {
    var s' := HandlerSubmit(s, c, Removing(e), ok).value;
    if ok {
      LetGo(s, s'.disk.queue, c, e);
    }
    HandlerMovesRefused(s, s', c, Refusing(e.id));
  }

  lemma PushRefused(s: Sys, c: Conn, e: QueueEntry)
    requires Base(s) && RefusedOk(s) && s.phase.Up? && c in s.mem.handlers && s.mem.handlers[c] == Sending(e)
    ensures RefusedOk(s.(mem := s.mem.(channel := s.mem.channel + [e], handlers := s.mem.handlers[c := Acking(e.id)]),
                         log := s.log.(sent := s.log.sent + {e.id})))
  {
    var s' := s.(mem := s.mem.(channel := s.mem.channel + [e], handlers := s.mem.handlers[c := Acking(e.id)]),
                 log := s.log.(sent := s.log.sent + {e.id}));
    forall id | Gone(s, id) ensures Gone(s', id) {
      PushMembers(s.mem.channel, e, id);
      assert Owns(s.mem.handlers[c]) && id != e.id;
      if Owned(s'.mem.handlers, id) {
        OwnedAfter(s.mem.handlers, c, Acking(e.id), id);
      }
    }
    forall d | d in s'.mem.handlers && Owns(s'.mem.handlers[d]) ensures NeverSent(s'.log, s'.mem.handlers[d].e.id) {
      assert d != c && s.mem.handlers[d] == s'.mem.handlers[d] && OwnersDiffer(s.mem.handlers);
    }
  }

  lemma SubmitRefused(s: Sys, c: Conn, ok: bool)
    requires Base(s) && RefusedOk(s) && s.phase.Up? && c in s.mem.handlers
    requires HandlerSubmit(s, c, s.mem.handlers[c], ok).Some?
    ensures RefusedOk(HandlerSubmit(s, c, s.mem.handlers[c], ok).value)
  {
    var h := s.mem.handlers[c];
    if h.Removing? {
      RemoveRefused(s, c, h.e, ok);
    } else if h.Sending? && s.mem.pc != Stopped {
      PushRefused(s, c, h.e);
    } else {
      assert HandlerOk(h, s.log.orig);
      var s' := HandlerSubmit(s, c, h, ok).value;
      HandlerMovesRefused(s, s', c, s'.mem.handlers[c]);
    }
  }

  lemma ReceiveRefused(s: Sys, c: Conn, e: QueueEntry, request: NotifyRequest)
    requires Base(s) && RefusedOk(s) && HandlerStep(s, c, Receive(e, request)).Some?
    ensures RefusedOk(HandlerStep(s, c, Receive(e, request)).value)
  {
    var s' := HandlerStep(s, c, Receive(e, request)).value;
    assert NeverSent(s'.log, e.id);
    forall id | Gone(s, id) && id in s.log.orig ensures Gone(s', id) {
      if Owned(s'.mem.handlers, id) {
        OwnedAfter(s.mem.handlers, c, Opening(e), id);
      }
    }
    forall d | d in s'.mem.handlers && s'.mem.handlers[d].Refusing? ensures s'.mem.handlers[d].id in s.log.orig {
      assert HandlerOk(s.mem.handlers[d], s.log.orig);
    }
  }

  lemma ConnectRefused(s: Sys, c: Conn, a: HandlerAct)
    requires RefusedOk(s) && (a.Connect? || a.Disconnect?) && HandlerStep(s, c, a).Some?
    ensures RefusedOk(HandlerStep(s, c, a).value)
  {
  }

  lemma HandlerRefused(s: Sys, c: Conn, a: HandlerAct)
    requires Base(s) && RefusedOk(s) && HandlerStep(s, c, a).Some?
    ensures RefusedOk(HandlerStep(s, c, a).value)
  {
    match a {
      case Receive(e, request) => ReceiveRefused(s, c, e, request);
      case Connect => ConnectRefused(s, c, a);
      case Disconnect => ConnectRefused(s, c, a);
      case Proceed(ok) =>
        if Owns(s.mem.handlers[c]) && !Stored(s.mem.handlers[c]) {
          StoreRefused(s, c, ok);
        } else {
          SubmitRefused(s, c, ok);
        }
    }
  }

  // ----- the worker and the process -----

  /** What this file reads of the log is unchanged. */
  predicate SameRefusals(log: Log, log': Log) {
    && log'.refused == log.refused && log'.undone == log.undone && log'.orig == log.orig && log'.sent == log.sent
  }

  /** The worker keeps to the ids it holds. */
  lemma WorkerRefused(s: Sys, s': Sys)
    requires RefusedOk(s) && SameRefusals(s.log, s'.log)
    requires s'.log.wire == s.log.wire && s'.log.receipts == s.log.receipts
    requires s'.mem.handlers == s.mem.handlers && s'.mem.channel == s.mem.channel
    requires s'.mem.entries.Keys <= s.mem.entries.Keys
    requires s'.disk.queue.Keys <= s.disk.queue.Keys + s.mem.entries.Keys
    ensures RefusedOk(s')
  {
  }

  lemma InsertRefused(s: Sys, draining: bool)
    requires RefusedOk(s) && s.mem.channel != []
    ensures RefusedOk(Insert(s, draining))
  {
  }

  lemma TakeRefused(s: Sys, a: WorkerAct)
    requires RefusedOk(s) && s.phase.Up? && WorkerTake(s, a).Some?
    ensures RefusedOk(WorkerTake(s, a).value)
  {
    TakeEffect(s, a);
    if Inserts(s, a) {
      InsertRefused(s, s.mem.pc.Draining?);
    } else if s.mem.pc.Waiting? && a.Stop? {
      assert forall id :: !InChannel([], id);
      QuietRefused(s, s.(mem := s.mem.(channel := [], pc := Stopped)));
    } else {
      WorkerRefused(s, WorkerTake(s, a).value);
    }
  }

  lemma AcceptedRefused(s: Sys, e: QueueEntry, target: Target, k: nat)
    requires Base(s) && RefusedOk(s) && s.phase.Up? && s.mem.pc == Talking(e, target, k) && k < |ChunksOf(e, target)|
    ensures RefusedOk(ChunkAccepted(s, e, target, k))
  {
    var s' := ChunkAccepted(s, e, target, k);
    AcceptEffect(s, e, target, k);
    forall id | id != e.id ensures Deliveries(s'.log.receipts, id) == Deliveries(s.log.receipts, id) {
      DeliveriesPush(s.log.receipts, Receipt(e, target, |s'.log.wire|), id);
    }
    TalkingRefused(s, s', e.id, ApiCall(e.id, ChunksOf(e, target)[k], true));
  }

  lemma RejectedRefused(s: Sys, e: QueueEntry, target: Target, k: nat, error: SendError)
    requires Base(s) && RefusedOk(s) && s.phase.Up? && s.mem.pc == Talking(e, target, k) && k < |ChunksOf(e, target)|
    ensures RefusedOk(ChunkRejected(s, e, target, k, error))
  {
    RejectEffect(s, e, target, k, error);
    TalkingRefused(s, ChunkRejected(s, e, target, k, error), e.id, ApiCall(e.id, ChunksOf(e, target)[k], false));
  }

  lemma TalkRefused(s: Sys, a: WorkerAct)
    requires Base(s) && RefusedOk(s) && s.phase.Up? && WorkerTalk(s, a).Some?
    ensures RefusedOk(WorkerTalk(s, a).value)
  {
    if a.Answer? {
      if a.reply.Accepted? {
        AcceptedRefused(s, s.mem.pc.e, s.mem.pc.target, s.mem.pc.k);
      } else {
        RejectedRefused(s, s.mem.pc.e, s.mem.pc.target, s.mem.pc.k, a.reply.error);
      }
    } else {
      TalkEffect(s, a);
      WorkerRefused(s, WorkerTalk(s, a).value);
    }
  }

  lemma BuryRefused(s: Sys, ok: bool)
    requires RefusedOk(s) && s.phase.Up? && WorkerBury(s, ok).Some?
    ensures RefusedOk(WorkerBury(s, ok).value)
  {
    BuryEffect(s, ok);
    WorkerRefused(s, WorkerBury(s, ok).value);
  }

  lemma RetryRefused(s: Sys, ok: bool)
    requires Base(s) && RefusedOk(s) && s.phase.Up? && WorkerRetry(s, ok).Some?
    ensures RefusedOk(WorkerRetry(s, ok).value)
  {
    RetryEffect(s, ok);
    WorkerRefused(s, WorkerRetry(s, ok).value);
  }

  lemma ProcessRefused(s: Sys, a: ProcessAct)
    requires Base(s) && RefusedOk(s) && ProcessStep(s, a).Some?
    ensures RefusedOk(ProcessStep(s, a).value)
  {
    if a.Load? {
      LoadRefused(s, a.name, a.readable, a.movable);
    } else {
      ProcessEffect(s, a);
      assert forall id :: !InChannel([], id);
      QuietRefused(s, ProcessStep(s, a).value);
    }
  }

  lemma LoadRefused(s: Sys, name: DirName, readable: bool, movable: bool)
    requires Base(s) && RefusedOk(s) && s.phase.Booting? && (name.Final? || name.Temp?)
    ensures RefusedOk(LoadName(s, name, readable, movable))
  {
    LoadEffect(s, name, readable, movable);
    QuietRefused(s, LoadName(s, name, readable, movable));
  }

  lemma StepRefused(s: Sys, a: Action)
    requires Base(s) && RefusedOk(s) && Step(s, a).Some?
    ensures RefusedOk(Step(s, a).value)
  {
    match a {
      case OfHandler(c, ha) => HandlerRefused(s, c, ha);
      case OfProcess(pa) => ProcessRefused(s, pa);
      case OfWorker(wa) =>
        if Burying(s.mem.pc) {
          BuryRefused(s, wa.ok);
        } else if Retrying(s.mem.pc) {
          RetryRefused(s, wa.ok);
        } else if Speaking(s.mem.pc) {
          TalkRefused(s, wa);
        } else {
          TakeRefused(s, wa);
        }
    }
  }
}
