/**
  What reaches Telegram, and when. Every delivery on record was one attempt whose calls
  carried the whole body in order; and as long as the clock behaves, no entry is tried
  again before the delays it was given have passed, restarts included.
*/
module SystemTrace {
  import opened Messages
  import opened QueueStore
  import opened RetryPolicy
  import opened System
  import opened SystemShape
  import opened SystemDurable
  import opened SystemEffects

  // ----- deliveries are whole -----

  /** The `n` calls before number `at` carried the first `n` chunks of `e` and were accepted. */
  ghost predicate SpokenBefore(wire: seq<ApiCall>, e: QueueEntry, target: Target, at: nat, n: nat) {
    && n <= at <= |wire| && n <= |ChunksOf(e, target)|
    && (forall j :: at - n <= j < at ==> wire[j] == ApiCall(e.id, ChunksOf(e, target)[j - (at - n)], true))
  }

  ghost predicate ReceiptOk(wire: seq<ApiCall>, orig: map<Id, QueueEntry>, r: Receipt) {
    IsCopy(orig, r.entry) && SpokenBefore(wire, r.entry, r.target, r.at, |ChunksOf(r.entry, r.target)|)
  }

  ghost predicate ReceiptsOk(wire: seq<ApiCall>, orig: map<Id, QueueEntry>, receipts: seq<Receipt>) {
    forall i :: 0 <= i < |receipts| ==> ReceiptOk(wire, orig, receipts[i])
  }

  ghost predicate TalkingOk(wire: seq<ApiCall>, pc: WorkerPc) {
    pc.Talking? ==> SpokenBefore(wire, pc.e, pc.target, |wire|, pc.k)
  }

  ghost predicate Traced(s: Sys) {
    ReceiptsOk(s.log.wire, s.log.orig, s.log.receipts) && TalkingOk(s.log.wire, s.mem.pc)
  }

  lemma ReceiptsKept(wire: seq<ApiCall>, call: ApiCall, orig: map<Id, QueueEntry>, receipts: seq<Receipt>)
    requires ReceiptsOk(wire, orig, receipts)
    ensures ReceiptsOk(wire + [call], orig, receipts)
  {
  }

  lemma AcceptedTraced(s: Sys, e: QueueEntry, target: Target, k: nat)
    requires Shape(s) && Traced(s) && s.mem.pc == Talking(e, target, k) && k < |ChunksOf(e, target)|
    ensures Traced(ChunkAccepted(s, e, target, k))
  {
    var call := ApiCall(e.id, ChunksOf(e, target)[k], true);
    var wire := s.log.wire + [call];
    ReceiptsKept(s.log.wire, call, s.log.orig, s.log.receipts);
    SpokenOn(s.log.wire, e, target, k);
    assert IsCopy(s.log.orig, e);
  }

  lemma SpokenOn(wire: seq<ApiCall>, e: QueueEntry, target: Target, k: nat)
    requires SpokenBefore(wire, e, target, |wire|, k) && k < |ChunksOf(e, target)|
    ensures var wire' := wire + [ApiCall(e.id, ChunksOf(e, target)[k], true)];
            SpokenBefore(wire', e, target, |wire'|, k + 1)
  {
  }

  lemma RejectedTraced(s: Sys, e: QueueEntry, target: Target, k: nat, error: SendError)
    requires Shape(s) && Traced(s) && s.mem.pc == Talking(e, target, k) && k < |ChunksOf(e, target)|
    ensures Traced(ChunkRejected(s, e, target, k, error))
  {
    ReceiptsKept(s.log.wire, ApiCall(e.id, ChunksOf(e, target)[k], false), s.log.orig, s.log.receipts);
  }

  /** Everyone but a talking worker leaves the wire and the receipts alone. */
  lemma QuietTraced(s: Sys, s': Sys)
    requires Shape(s) && Traced(s) && s'.log.wire == s.log.wire && s'.log.receipts == s.log.receipts
    requires forall id :: id in s.log.orig ==> id in s'.log.orig && s'.log.orig[id] == s.log.orig[id]
    requires s'.mem.pc == s.mem.pc || (s'.mem.pc.Talking? ==> s'.mem.pc.k == 0)
    ensures Traced(s')
  {
  }

  lemma TalkTraced(s: Sys, a: WorkerAct)
    requires Shape(s) && Traced(s) && s.phase.Up? && WorkerTalk(s, a).Some?
    ensures Traced(WorkerTalk(s, a).value)
  {
    if s.mem.pc.Talking? && a.Answer? {
      if a.reply.Accepted? {
        AcceptedTraced(s, s.mem.pc.e, s.mem.pc.target, s.mem.pc.k);
      } else {
        RejectedTraced(s, s.mem.pc.e, s.mem.pc.target, s.mem.pc.k, a.reply.error);
      }
    } else {
      TalkEffect(s, a);
      QuietTraced(s, WorkerTalk(s, a).value);
    }
  }

  lemma HandlerTraced(s: Sys, c: Conn, a: HandlerAct)
    requires Shape(s) && Traced(s) && HandlerStep(s, c, a).Some?
    ensures Traced(HandlerStep(s, c, a).value)
  {
    if a.Proceed? {
      ProceedEffect(s, c, a.ok);
    }
    QuietTraced(s, HandlerStep(s, c, a).value);
  }

  lemma ProcessTraced(s: Sys, a: ProcessAct)
    requires Shape(s) && Traced(s) && ProcessStep(s, a).Some?
    ensures Traced(ProcessStep(s, a).value)
  {
  }

  lemma StepTraced(s: Sys, a: Action)
    requires Shape(s) && Traced(s) && Step(s, a).Some?
    ensures Traced(Step(s, a).value)
  {
    match a {
      case OfHandler(c, ha) => HandlerTraced(s, c, ha);
      case OfProcess(pa) => ProcessTraced(s, pa);
      case OfWorker(wa) =>
        if Burying(s.mem.pc) {
          BuryEffect(s, wa.ok);
          QuietTraced(s, WorkerBury(s, wa.ok).value);
        } else if Retrying(s.mem.pc) {
          RetryEffect(s, wa.ok);
          QuietTraced(s, WorkerRetry(s, wa.ok).value);
        } else if Speaking(s.mem.pc) {
          TalkTraced(s, wa);
        } else {
          TakeEffect(s, wa);
          QuietTraced(s, WorkerTake(s, wa).value);
        }
    }
  }

  // ----- entries carry what was asked for -----

  ghost predicate AskedOk(orig: map<Id, QueueEntry>, requests: map<Id, NotifyRequest>) {
    forall id :: id in orig ==> id in requests && Carries(orig[id], requests[id])
  }

  /** Everyone but a handler receiving a request leaves these records alone. */
  lemma WorkerAsked(s: Sys, a: WorkerAct)
    requires Step(s, OfWorker(a)).Some?
    ensures var s' := Step(s, OfWorker(a)).value;
            s'.log.orig == s.log.orig && s'.log.requests == s.log.requests
  {
    if Burying(s.mem.pc) {
      BuryEffect(s, a.ok);
    } else if Retrying(s.mem.pc) {
      RetryEffect(s, a.ok);
    } else if Speaking(s.mem.pc) {
      TalkAsked(s, a);
    } else {
      TakeEffect(s, a);
    }
  }

  lemma TalkAsked(s: Sys, a: WorkerAct)
    requires WorkerTalk(s, a).Some?
    ensures var s' := WorkerTalk(s, a).value;
            s'.log.orig == s.log.orig && s'.log.requests == s.log.requests
  {
    if !a.Answer? {
      TalkEffect(s, a);
    } else {
      AnswerEffect(s, a);
      if a.reply.Accepted? {
        AcceptEffect(s, s.mem.pc.e, s.mem.pc.target, s.mem.pc.k);
      } else {
        RejectEffect(s, s.mem.pc.e, s.mem.pc.target, s.mem.pc.k, a.reply.error);
      }
    }
  }

  lemma ProcessAsked(s: Sys, a: ProcessAct)
    requires ProcessStep(s, a).Some?
    ensures var s' := ProcessStep(s, a).value;
            s'.log.orig == s.log.orig && s'.log.requests == s.log.requests
  {
    if a.Load? {
      LoadEffect(s, a.name, a.readable, a.movable);
    } else {
      ProcessEffect(s, a);
    }
  }

  lemma StepAsked(s: Sys, a: Action)
    requires AskedOk(s.log.orig, s.log.requests) && Step(s, a).Some?
    ensures AskedOk(Step(s, a).value.log.orig, Step(s, a).value.log.requests)
  {
    match a {
      case OfHandler(c, ha) => HandlerEffect(s, c, ha);
      case OfWorker(wa) => WorkerAsked(s, wa);
      case OfProcess(pa) => ProcessAsked(s, pa);
    }
  }

  // ----- delays add up -----

  /** `e` is not due before its creation plus the delays assigned so far. */
  ghost predicate Delayed(orig: map<Id, QueueEntry>, delays: map<Id, nat>, e: QueueEntry) {
    && e.id in delays && e.id in orig
    && e.nextAttemptAt >= orig[e.id].createdAt + delays[e.id]
  }

  /** Nothing was ever assigned to `id`. */
  ghost predicate Undelayed(delays: map<Id, nat>, id: Id) {
    id in delays && delays[id] == 0
  }

  /** The id whose new retry state is on its way to the disk. */
  function Saving(pc: WorkerPc): set<Id> {
    LostRetry(pc)
  }

  function Rescheduled(pc: WorkerPc): set<Id> {
    if Retrying(pc) then {pc.e.id} else {}
  }

  ghost predicate OrigPunctual(orig: map<Id, QueueEntry>, delays: map<Id, nat>) {
    forall id :: id in orig ==> id in delays && orig[id].nextAttemptAt == orig[id].createdAt
  }

  ghost predicate HandlersPunctual(handlers: map<Conn, Handler>, delays: map<Id, nat>) {
    forall c :: c in handlers && Owns(handlers[c]) ==> Undelayed(delays, handlers[c].e.id)
  }

  ghost predicate ChannelPunctual(channel: seq<QueueEntry>, delays: map<Id, nat>) {
    forall i :: 0 <= i < |channel| ==> Undelayed(delays, channel[i].id)
  }

  ghost predicate FilesPunctual(queue: map<Id, File>, orig: map<Id, QueueEntry>, delays: map<Id, nat>,
                                except: set<Id>)
  {
    forall id :: id in queue && id !in except && queue[id].Complete? ==> Delayed(orig, delays, queue[id].entry)
  }

  ghost predicate EntriesPunctual(entries: map<Id, QueueEntry>, orig: map<Id, QueueEntry>, delays: map<Id, nat>,
                                  except: set<Id>)
  {
    forall id :: id in entries && id !in except ==> Delayed(orig, delays, entries[id])
  }

  ghost predicate PcPunctual(pc: WorkerPc, log: Log, clock: u64) {
    && (Retrying(pc) && pc.e.id !in log.unsaved ==> Delayed(log.orig, log.delays, pc.e))
    && (pc.Talking? ==> pc.e.nextAttemptAt <= clock)
  }

  ghost predicate Punctual(s: Sys) {
    && HandlersPunctual(s.mem.handlers, s.log.delays)
    && ChannelPunctual(s.mem.channel, s.log.delays)
    && FilesPunctual(s.disk.queue, s.log.orig, s.log.delays, s.log.unsaved + Saving(s.mem.pc))
    && EntriesPunctual(s.mem.entries, s.log.orig, s.log.delays, s.log.unsaved + Rescheduled(s.mem.pc))
    && PcPunctual(s.mem.pc, s.log, s.clock)
  }

  /** As long as the clock has not gone back and no deadline has wrapped around. */
  ghost predicate Timed(s: Sys) {
    && OrigPunctual(s.log.orig, s.log.delays)
    && (s.log.steady ==> Punctual(s))
  }

  lemma ProceedTimed(s: Sys, c: Conn, ok: bool)
    requires Base(s) && Timed(s) && HandlerStep(s, c, Proceed(ok)).Some?
    ensures Timed(HandlerStep(s, c, Proceed(ok)).value)
  {
    var s', h := HandlerStep(s, c, Proceed(ok)).value, s.mem.handlers[c];
    ProceedEffect(s, c, ok);
    if s.log.steady {
      assert HandlerOk(h, s.log.orig);
      if h.Renaming? {
        assert s.disk.temps[h.e.id] == Complete(h.e) && Undelayed(s.log.delays, h.e.id);
      }
    }
  }

  lemma ReceiveTimed(s: Sys, c: Conn, e: QueueEntry, request: NotifyRequest)
    requires Base(s) && Timed(s) && HandlerStep(s, c, Receive(e, request)).Some?
    ensures Timed(HandlerStep(s, c, Receive(e, request)).value)
  {
    var s' := HandlerStep(s, c, Receive(e, request)).value;
    OrigGrows(s.mem, s.log.orig, e);
    if s.log.steady {
      forall x | Delayed(s.log.orig, s.log.delays, x) ensures Delayed(s'.log.orig, s'.log.delays, x) {
      }
      forall id | Undelayed(s.log.delays, id) ensures Undelayed(s'.log.delays, id) {
      }
    }
  }

  lemma HandlerTimed(s: Sys, c: Conn, a: HandlerAct)
    requires Base(s) && Timed(s) && HandlerStep(s, c, a).Some?
    ensures Timed(HandlerStep(s, c, a).value)
  {
    match a {
      case Proceed(ok) => ProceedTimed(s, c, ok);
      case Receive(e, request) => ReceiveTimed(s, c, e, request);
      case Connect =>
      case Disconnect =>
    }
  }

  lemma InsertTimed(s: Sys, draining: bool)
    requires Base(s) && Timed(s) && s.mem.channel != [] && (s.mem.pc == Draining || s.mem.pc == Waiting)
    ensures Timed(Insert(s, draining))
  {
    var s' := Insert(s, draining);
    if s.log.steady {
      assert forall i :: 0 <= i < |s'.mem.channel| ==> s'.mem.channel[i] == s.mem.channel[i + 1];
      assert Undelayed(s.log.delays, s.mem.channel[0].id);
    }
  }

  lemma TakeTimed(s: Sys, a: WorkerAct)
    requires Base(s) && Timed(s) && s.phase.Up? && !Speaking(s.mem.pc) && !Burying(s.mem.pc) && !Retrying(s.mem.pc)
    requires WorkerTake(s, a).Some?
    ensures Timed(WorkerTake(s, a).value)
  {
    TakeEffect(s, a);
    if Inserts(s, a) {
      InsertTimed(s, s.mem.pc.Draining?);
    }
  }

  lemma AcceptedTimed(s: Sys, e: QueueEntry, target: Target, k: nat)
    requires Base(s) && Timed(s) && s.mem.pc == Talking(e, target, k) && k < |ChunksOf(e, target)|
    ensures Timed(ChunkAccepted(s, e, target, k))
  {
  }

  lemma RejectedTimed(s: Sys, e: QueueEntry, target: Target, k: nat, error: SendError)
    requires Base(s) && Timed(s) && s.mem.pc == Talking(e, target, k) && k < |ChunksOf(e, target)|
    ensures Timed(ChunkRejected(s, e, target, k, error))
  {
    var decision := Decide(s.config.retry, e, error, s.clock);
    if decision.Retry? {
      RescheduleTimed(s, Called(s, ApiCall(e.id, ChunksOf(e, target)[k], false)), e, decision.entry, decision.delay);
    }
  }

  lemma RescheduleTimed(s: Sys, s1: Sys, e: QueueEntry, next: QueueEntry, delay: u64)
    requires Base(s) && Timed(s) && s.mem.pc.Talking? && s.mem.pc.e == e
    requires s1 == s.(log := s.log.(wire := s1.log.wire))
    requires next.id == e.id && next.nextAttemptAt == WrappingAdd(s.clock, delay)
    ensures Timed(Reschedule(s1, next, delay))
  {
    var s' := Reschedule(s1, next, delay);
    if s'.log.steady {
      HeldAlone(s, e.id);
      assert next.nextAttemptAt == s.clock + delay;
      assert e.id !in s.log.unsaved ==> Delayed(s.log.orig, s.log.delays, e);
      forall x | Delayed(s.log.orig, s.log.delays, x) && x.id != e.id ensures Delayed(s'.log.orig, s'.log.delays, x) {
      }
      NewcomersUndelayed(s.mem, s.log.delays, s'.log.delays, e.id);
    }
  }

  /** A delay assigned to an id nobody brings in is no delay of those brought in. */
  lemma NewcomersUndelayed(m: Mem, delays: map<Id, nat>, delays': map<Id, nat>, x: Id)
    requires HandlersPunctual(m.handlers, delays) && ChannelPunctual(m.channel, delays)
    requires !Owned(m.handlers, x) && !InChannel(m.channel, x)
    requires forall id :: id in delays && id != x ==> id in delays' && delays'[id] == delays[id]
    ensures HandlersPunctual(m.handlers, delays') && ChannelPunctual(m.channel, delays')
  {
    forall c | c in m.handlers && Owns(m.handlers[c]) ensures Undelayed(delays', m.handlers[c].e.id) {
      assert Owned(m.handlers, m.handlers[c].e.id);
    }
    forall i | 0 <= i < |m.channel| ensures Undelayed(delays', m.channel[i].id) {
      assert InChannel(m.channel, m.channel[i].id);
    }
  }

  lemma TalkTimed(s: Sys, a: WorkerAct)
    requires Base(s) && Timed(s) && s.phase.Up? && Speaking(s.mem.pc) && WorkerTalk(s, a).Some?
    ensures Timed(WorkerTalk(s, a).value)
  {
    if a.Answer? {
      if a.reply.Accepted? {
        AcceptedTimed(s, s.mem.pc.e, s.mem.pc.target, s.mem.pc.k);
      } else {
        RejectedTimed(s, s.mem.pc.e, s.mem.pc.target, s.mem.pc.k, a.reply.error);
      }
    } else {
      TalkEffect(s, a);
    }
  }

  lemma BuryTimed(s: Sys, ok: bool)
    requires Timed(s) && WorkerBury(s, ok).Some?
    ensures Timed(WorkerBury(s, ok).value)
  {
    BuryEffect(s, ok);
    RemovalTimed(s, WorkerBury(s, ok).value);
  }

  /** Files and entries only go, and the worker has nothing to store. */
  lemma RemovalTimed(s: Sys, s': Sys)
    requires Timed(s) && !Retrying(s.mem.pc) && !Retrying(s'.mem.pc) && !s'.mem.pc.Talking?
    requires SameTiming(s.log, s'.log) && s'.log.orig == s.log.orig && s'.clock == s.clock
    requires s'.mem.handlers == s.mem.handlers && s'.mem.channel == s.mem.channel
    requires forall id :: id in s'.disk.queue ==> id in s.disk.queue && s'.disk.queue[id] == s.disk.queue[id]
    requires forall id :: id in s'.mem.entries ==> id in s.mem.entries && s'.mem.entries[id] == s.mem.entries[id]
    ensures Timed(s')
  {
  }

  lemma RetryTimed(s: Sys, ok: bool)
    requires Base(s) && Timed(s) && WorkerRetry(s, ok).Some?
    ensures Timed(WorkerRetry(s, ok).value)
  {
    RetryEffect(s, ok);
  }

  lemma LoadTimed(s: Sys, name: DirName, readable: bool, movable: bool)
    requires Base(s) && Timed(s) && s.phase.Booting? && (name.Final? || name.Temp?)
    ensures Timed(LoadName(s, name, readable, movable))
  {
  }

  lemma ProcessTimed(s: Sys, a: ProcessAct)
    requires Base(s) && Timed(s) && ProcessStep(s, a).Some?
    ensures Timed(ProcessStep(s, a).value)
  {
    if a.Load? {
      LoadTimed(s, a.name, a.readable, a.movable);
    } else {
      ProcessEffect(s, a);
    }
  }

  lemma StepTimed(s: Sys, a: Action)
    requires Base(s) && Timed(s) && Step(s, a).Some?
    ensures Timed(Step(s, a).value)
  {
    match a {
      case OfHandler(c, ha) => HandlerTimed(s, c, ha);
      case OfProcess(pa) => ProcessTimed(s, pa);
      case OfWorker(wa) =>
        if Burying(s.mem.pc) {
          BuryTimed(s, wa.ok);
        } else if Retrying(s.mem.pc) {
          RetryTimed(s, wa.ok);
        } else if Speaking(s.mem.pc) {
          TalkTimed(s, wa);
        } else {
          TakeTimed(s, wa);
        }
    }
  }
}
