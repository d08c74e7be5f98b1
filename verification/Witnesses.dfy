/**
  Runs that show where the documented promises stop. Each lemma builds a reachable state
  in which a stronger reading of the documentation is false.
*/
module Witnesses {
  import opened Messages
  import opened QueueStore
  import opened Scheduling
  import opened System
  import SystemShape
  import SystemCounts
  import SystemDurable

  const LAX: RetryConfig := RetryConfig(10, 5, 900, 2.0)

  function SmallMessage(id: Id): QueueEntry {
    QueueEntry(id, 0, 0, 0, None, Normal, QueuedMessage("t", "x", None, None, None, None))
  }

  const CHAT: Target := Target("t", Plain, false, None)

  lemma Reach(s: Sys, a: Action) returns (s': Sys)
    requires Reachable(s) && Step(s, a).Some?
    ensures Reachable(s') && Step(s, a) == Some(s')
  {
    s' := Step(s, a).value;
    assert [a][1..] == [];
    assert Run(s, [a]) == Some(s');
    ReachableRun(s, [a]);
  }

  /** A fresh installation, started at time zero. */
  lemma Started(maxQueueSize: nat) returns (s: Sys)
    ensures Reachable(s) && s.phase.Up? && s.disk == EMPTY && s.clock == 0
    ensures s.config.maxQueueSize == maxQueueSize && s.mem == BLANK.(pc := Head)
    ensures s.log.orig == map[] && s.log.receipts == [] && s.log.givenUp == {} && s.log.skipped == {}
    ensures s.log.starts == 1
    ensures s.log.restored == 0 && s.log.peak == 0
  {
    var config := Config(LAX, maxQueueSize, 0);
    var log := Log(map[], map[], map[], {}, {}, {}, {}, {}, {}, [], [], map[], {}, multiset{}, true,
                   multiset{}, 0, 0, true, {}, multiset{}, multiset{}, map[], 0, 0, 0);
    s := Sys(EMPTY, Down, BLANK, log, config, 0);
    assert Initial(s) && Run(s, []) == Some(s);
    s := Reach(s, OfProcess(Boot(config)));
    assert Names(EMPTY) == {};
    s := Reach(s, OfProcess(Start));
  }

  /** A request for just this entry. */
  function RequestFor(e: QueueEntry): NotifyRequest {
    var m := e.message;
    NotifyRequest(1, m.text, m.title, Some(m.target), m.format, e.priority, m.silent, m.source)
  }

  /** What creating an entry does to the log. */
  function Created(log: Log, e: QueueEntry): Log {
    Asked(log, e, RequestFor(e))
  }

  /** A connection is opened. */
  lemma Open(s: Sys, c: Conn) returns (s': Sys)
    requires Reachable(s) && s.phase.Up? && c !in s.mem.handlers
    ensures Reachable(s')
    ensures var open := |s.mem.handlers| + 1;
            s' == At(s, c, Idle).(log := s.log.(peak := if open > s.log.peak then open else s.log.peak))
  {
    s' := Reach(s, OfHandler(c, Connect));
  }

  /** An open connection sends a request; its entry is stored and about to be checked. */
  lemma Store(s: Sys, c: Conn, e: QueueEntry) returns (s': Sys)
    requires Reachable(s) && s.phase.Up? && c in s.mem.handlers && s.mem.handlers[c] == Idle && IsNew(s, e)
    requires s.disk.temps == map[]
    ensures Reachable(s') && s' == Sys(s.disk.(queue := s.disk.queue[e.id := Complete(e)]), Up,
                                       s.mem.(handlers := s.mem.handlers[c := Checking(e)]),
                                       Created(s.log, e), s.config, s.clock)
  {
    var s1 := Reach(s, OfHandler(c, Receive(e, RequestFor(e))));
    var s2 := WriteTemp(s1, c, e);
    s' := Reach(s2, OfHandler(c, Proceed(true)));
    assert map[e.id := Complete(e)] - {e.id} == map[];
    assert s.mem.handlers[c := Opening(e)][c := Renaming(e)][c := Checking(e)] == s.mem.handlers[c := Checking(e)];
  }

  lemma WriteTemp(s: Sys, c: Conn, e: QueueEntry) returns (s': Sys)
    requires Reachable(s) && s.phase.Up? && c in s.mem.handlers && s.mem.handlers[c] == Opening(e)
    requires s.disk.temps == map[]
    ensures Reachable(s')
    ensures s' == At(s.(disk := s.disk.(temps := map[e.id := Complete(e)])), c, Renaming(e))
  {
    var s1 := Reach(s, OfHandler(c, Proceed(true)));
    s' := Reach(s1, OfHandler(c, Proceed(true)));
    assert s.mem.handlers[c := Writing(e)][c := Renaming(e)] == s.mem.handlers[c := Renaming(e)];
  }

  /** The size check passes. */
  lemma Check(s: Sys, c: Conn, e: QueueEntry) returns (s': Sys)
    requires Reachable(s) && s.phase.Up? && c in s.mem.handlers && s.mem.handlers[c] == Checking(e)
    requires s.mem.pending < s.config.maxQueueSize || s.config.maxQueueSize == 0
    ensures Reachable(s') && s' == At(s, c, Sending(e))
  {
    s' := Reach(s, OfHandler(c, Proceed(true)));
  }

  /** There is room in the channel: the entry is sent and answered `Queued`. */
  lemma Send(s: Sys, c: Conn, e: QueueEntry) returns (s': Sys)
    requires Reachable(s) && s.phase.Up? && c in s.mem.handlers && s.mem.handlers[c] == Sending(e)
    requires |s.mem.channel| < CHANNEL_CAPACITY && s.mem.pc != Stopped
    ensures Reachable(s')
    ensures s' == At(s.(mem := s.mem.(channel := s.mem.channel + [e]),
                        log := s.log.(sent := s.log.sent + {e.id}, acked := s.log.acked + {e.id})), c, Idle)
  {
    var s1 := Reach(s, OfHandler(c, Proceed(true)));
    assert s1.mem.handlers[c] == Acking(e.id);
    s' := Reach(s1, OfHandler(c, Proceed(true)));
  }

  /** A request is served from end to end. */
  lemma Accept(s: Sys, c: Conn, e: QueueEntry) returns (s': Sys)
    requires Reachable(s) && s.phase.Up? && c in s.mem.handlers && s.mem.handlers[c] == Idle && IsNew(s, e)
    requires s.disk.temps == map[] && (s.mem.pending < s.config.maxQueueSize || s.config.maxQueueSize == 0)
    requires |s.mem.channel| < CHANNEL_CAPACITY && s.mem.pc != Stopped
    ensures Reachable(s') && s'.phase.Up? && s'.config == s.config && s'.clock == s.clock && s'.disk.temps == map[]
    ensures s'.mem == s.mem.(channel := s.mem.channel + [e])
    ensures s'.disk.queue == s.disk.queue[e.id := Complete(e)]
    ensures s'.log == Created(s.log, e).(sent := s.log.sent + {e.id}, acked := s.log.acked + {e.id})
  {
    var s1 := Store(s, c, e);
    var s2 := Check(s1, c, e);
    s' := Send(s2, c, e);
    assert s.mem.handlers[c := Checking(e)][c := Sending(e)][c := Idle] == s.mem.handlers;
  }

  /** "Zero means everything was delivered" is false: an acknowledged message can still be in the channel. */
  lemma FlushedZeroIsNotDelivered() returns (s: Sys, id: Id)
    ensures Reachable(s) && s.phase.Up? && s.mem.pc != Stopped && s.mem.pending == 0
    ensures id in s.log.acked && Deliveries(s.log.receipts, id) == 0 && id !in s.log.givenUp && id !in s.log.skipped
    ensures SystemShape.InChannel(s.mem.channel, id)
  {
    id := "a";
    s := Started(1);
    s := Open(s, 0);
    s := Accept(s, 0, SmallMessage(id));
    assert s.mem.channel[0].id == id;
  }

  /** The idle worker is told to stop. */
  lemma Halt(s: Sys) returns (s': Sys)
    requires Reachable(s) && s.phase.Up? && s.mem.pc == Head && s.mem.entries == map[]
    ensures Reachable(s') && s' == s.(mem := s.mem.(channel := [], pc := Stopped))
  {
    s' := Reach(s, OfWorker(Go(true)));
    assert s'.mem.pc == Waiting;
    s' := Reach(s', OfWorker(Stop));
  }

  /** ... or, the worker having stopped, nowhere but on disk. */
  lemma FlushedZeroAfterStop() returns (s: Sys, id: Id)
    ensures Reachable(s) && s.phase.Up? && s.mem.pc == Stopped && s.mem.pending == 0
    ensures id in s.log.acked && Deliveries(s.log.receipts, id) == 0 && id !in s.log.givenUp && id !in s.log.skipped
    ensures s.mem.channel == [] && s.mem.entries == map[] && id in s.disk.queue
  {
    id := "a";
    s := Started(1);
    s := Open(s, 0);
    s := Accept(s, 0, SmallMessage(id));
    s := Halt(s);
  }

  /** ... or given up on: nothing is left to wait for, and nothing was delivered. */
  lemma FlushedZeroAfterGivingUp() returns (s: Sys, id: Id)
    ensures Reachable(s) && s.phase.Up? && s.mem.pc == Head && s.mem.pending == 0 && s.mem.channel == []
    ensures id in s.log.acked && id in s.log.givenUp && Deliveries(s.log.receipts, id) == 0
  {
    id := "a";
    var e := SmallMessage(id);
    s := Started(1);
    s := Open(s, 0);
    s := Accept(s, 0, e);
    s := TakeOne(s, e);
    s := GiveUpHeld(s, e);
  }

  /** From the loop head, the one held message has no target any more and is set aside. */
  lemma GiveUpHeld(s: Sys, e: QueueEntry) returns (s': Sys)
    requires Reachable(s) && s.phase.Up? && s.mem.pc == Head && s.mem.channel == []
    requires s.mem.entries == map[e.id := e] && e.IsDue(s.clock)
    ensures Reachable(s') && s'.phase.Up? && s'.mem.pc == Head && s'.mem.pending == 0 && s'.mem.channel == []
    ensures s'.log.acked == s.log.acked && s'.log.receipts == s.log.receipts && e.id in s'.log.givenUp
  {
    assert s.mem.entries[e.id].IsDue(s.clock) && HasDue(s.mem.entries, s.clock);
    var s1 := ReadyToPick(s);
    var s2 := Reach(s1, OfWorker(Pick(e, None, "")));
    s' := BuryHeld(s2, WorkerLoop.WithReason(e, Unresolvable("")));
  }

  /** `finish_failed` without a fault. */
  lemma BuryHeld(s: Sys, dead: QueueEntry) returns (s': Sys)
    requires Reachable(s) && s.phase.Up? && s.mem.pc == DeadOpening(dead) && s.mem.entries.Keys == {dead.id}
    ensures Reachable(s') && s'.phase.Up? && s'.log == s.log
    ensures s'.mem == s.mem.(entries := map[], pending := 0, pc := Head)
  {
    var s1 := Reach(s, OfWorker(Go(true)));
    assert s1.mem == s.mem.(pc := DeadWriting(dead)) && s1.log == s.log;
    var s2 := Reach(s1, OfWorker(Go(true)));
    assert s2.mem == s.mem.(pc := DeadUnlinking(dead)) && s2.log == s.log;
    var s3 := Reach(s2, OfWorker(Go(true)));
    assert s3.mem == s.mem.(pc := Dropping(dead)) && s3.log == s.log;
    s' := DropHeld(s3, dead);
  }

  lemma DropHeld(s: Sys, dead: QueueEntry) returns (s': Sys)
    requires Reachable(s) && s.phase.Up? && s.mem.pc == Dropping(dead) && s.mem.entries.Keys == {dead.id}
    ensures Reachable(s') && s'.phase.Up? && s'.log == s.log
    ensures s'.mem == s.mem.(entries := map[], pending := 0, pc := Head)
  {
    var s1 := Reach(s, OfWorker(Go(true)));
    assert s.mem.entries - {dead.id} == map[];
    s' := Reach(s1, OfWorker(Go(true)));
  }

  /** "Reject new messages once this many are pending" is false: a limit of one lets two be acknowledged. */
  lemma SizeLimitIsExceeded() returns (s: Sys, a: Id, b: Id)
    ensures Reachable(s) && s.phase.Up? && s.config.maxQueueSize == 1
    ensures a != b && a in s.log.acked && b in s.log.acked && s.log.receipts == []
    ensures SystemCounts.QueueLoad(s.mem) == 2
  {
    a, b := "a", "b";
    s := Started(1);
    s := Open(s, 0);
    s := Accept(s, 0, SmallMessage(a));
    s := Accept(s, 0, SmallMessage(b));
    assert SystemCounts.Senders(s.mem.handlers) == {};
  }

  /** A crash and a restart that finds one file. */
  lemma RestartWith(s: Sys, e: QueueEntry) returns (s': Sys)
    requires Reachable(s) && s.phase.Up? && s.disk.queue == map[e.id := Complete(e)] && s.disk.temps == map[]
    ensures Reachable(s') && s'.phase.Up? && s'.clock == s.clock && s'.disk == s.disk
    ensures s'.mem == BLANK.(entries := map[e.id := e], pending := 1, pc := Head)
    ensures s'.log.receipts == s.log.receipts && s'.log.refused == s.log.refused && s'.log.orig == s.log.orig
         && s'.log.born == s.log.born && s'.log.starts == s.log.starts + 1
  {
    var s1 := Reboot(s, e);
    var s2 := Reach(s1, OfProcess(Load(Final(e.id), true, true)));
    assert s2.phase.todo == {} && s2.mem.entries == map[e.id := e];
    s' := Reach(s2, OfProcess(Start));
  }

  lemma Reboot(s: Sys, e: QueueEntry) returns (s': Sys)
    requires Reachable(s) && s.phase.Up? && s.disk.queue == map[e.id := Complete(e)] && s.disk.temps == map[]
    ensures Reachable(s') && s'.phase == Booting({Final(e.id)}) && s'.mem == BLANK && s'.disk == s.disk
    ensures s'.clock == s.clock
    ensures s'.log.receipts == s.log.receipts && s'.log.refused == s.log.refused && s'.log.orig == s.log.orig
         && s'.log.born == s.log.born && s'.log.starts == s.log.starts + 1
  {
    var s1 := Reach(s, OfProcess(Crash));
    s' := Reach(s1, OfProcess(Boot(s.config)));
    assert Names(s.disk) == {Final(e.id)};
  }

  /** Rejected stays rejected only if the removal works: otherwise a restart takes the message up. */
  lemma RejectedComesBack() returns (s: Sys, id: Id)
    ensures Reachable(s) && s.phase.Up? && id in s.log.refused && id in s.mem.entries
  {
    id := "a";
    var e := SmallMessage(id);
    s := Started(0);
    s := Halt(s);
    s := Open(s, 0);
    s := Store(s, 0, e);
    s := Refuse(s, 0, e);
    s := RestartWith(s, e);
  }

  /** The worker is gone and removing the stored file fails: the answer is `Error`, the file stays. */
  lemma Refuse(s: Sys, c: Conn, e: QueueEntry) returns (s': Sys)
    requires Reachable(s) && s.phase.Up? && c in s.mem.handlers && s.mem.handlers[c] == Checking(e)
    requires s.mem.pc == Stopped && s.config.maxQueueSize == 0
    ensures Reachable(s') && s'.phase.Up? && s'.disk == s.disk && e.id in s'.log.refused
  {
    s' := Reach(s, OfHandler(c, Proceed(true)));
    assert s'.mem.handlers[c] == Sending(e);
    s' := Reach(s', OfHandler(c, Proceed(true)));
    assert s'.mem.handlers[c] == Removing(e);
    s' := Reach(s', OfHandler(c, Proceed(false)));
    assert s'.mem.handlers[c] == Refusing(e.id);
    s' := Reach(s', OfHandler(c, Proceed(true)));
  }

  lemma SmallBody(id: Id)
    ensures ChunksOf(SmallMessage(id), CHAT) == ["x"]
  {
    assert Escaping.RenderBody(None, "x", Plain) == "x";
    assert Escaping.BodyOf(SmallMessage(id).message, CHAT) == "x";
  }

  /** From the loop head, the one held message is sent in full. */
  lemma SendHeld(s: Sys, id: Id) returns (s': Sys)
    requires Reachable(s) && s.phase.Up? && s.clock == 0 && s.mem.pc == Head && s.mem.channel == []
    requires s.mem.entries == map[id := SmallMessage(id)]
    ensures Reachable(s') && s'.phase.Up? && s'.clock == 0 && s'.disk == s.disk
    ensures s'.log.orig == s.log.orig && s'.log.born == s.log.born && s'.log.starts == s.log.starts
    ensures Deliveries(s'.log.receipts, id) == Deliveries(s.log.receipts, id) + 1
  {
    var e := SmallMessage(id);
    SmallBody(id);
    assert s.mem.entries[id].IsDue(s.clock) && HasDue(s.mem.entries, s.clock);
    var s1 := PickHeld(s, e);
    s' := Reach(s1, OfWorker(Answer(TelegramClient.Accepted)));
    SystemDurable.DeliveriesPush(s.log.receipts, Receipt(e, CHAT, |s'.log.wire|), id);
  }

  lemma ReadyToPick(s: Sys) returns (s': Sys)
    requires Reachable(s) && s.phase.Up? && s.mem.pc == Head && s.mem.channel == [] && HasDue(s.mem.entries, s.clock)
    ensures Reachable(s') && s' == Pc(s, Picking)
  {
    s' := Reach(s, OfWorker(Go(true)));
    assert s' == Pc(s, Draining);
    s' := Reach(s', OfWorker(Go(true)));
  }

  lemma PickHeld(s: Sys, e: QueueEntry) returns (s': Sys)
    requires Reachable(s) && s.phase.Up? && s.mem.pc == Head && s.mem.channel == []
    requires s.mem.entries == map[e.id := e] && e.IsDue(s.clock) && HasDue(s.mem.entries, s.clock)
    ensures Reachable(s') && s' == Attempt(s, e, CHAT)
  {
    s' := ReadyToPick(s);
    s' := Reach(s', OfWorker(Pick(e, Some(CHAT), "")));
  }

  /** The bound on duplicates is reached: one restart, two complete deliveries. */
  lemma DeliveredTwice() returns (s: Sys, id: Id)
    ensures Reachable(s) && id in s.log.orig && id in s.log.born
    ensures s.log.starts - s.log.born[id] == 1 && Deliveries(s.log.receipts, id) == 2
  {
    id := "a";
    var e := SmallMessage(id);
    s := Started(0);
    s := Open(s, 0);
    s := Accept(s, 0, e);
    s := TakeOne(s, e);
    s := SendHeld(s, id);
    s := RestartWith(s, e);
    s := SendHeld(s, id);
  }

  /** The idle worker takes the one entry in the channel. */
  lemma TakeOne(s: Sys, e: QueueEntry) returns (s': Sys)
    requires Reachable(s) && s.phase.Up? && s.mem.pc == Head && s.mem.entries == map[] && s.mem.channel == [e]
    ensures Reachable(s') && s'.phase.Up? && s'.clock == s.clock && s'.disk == s.disk && s'.log == s.log
    ensures s'.mem.pc == Head && s'.mem.entries == map[e.id := e] && s'.mem.channel == []
  {
    s' := Reach(s, OfWorker(Go(true)));
    assert s'.mem.pc == Waiting;
    s' := Reach(s', OfWorker(TakeArrival));
    s' := Reach(s', OfWorker(Go(true)));
  }
}
