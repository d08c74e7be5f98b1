/**
  What the daemon promises, for every reachable state: any interleaving of connections
  and worker, any file operation failing, a crash after any step, any number of restarts.
*/
module SystemTheorems {
  import opened Messages
  import opened QueueStore
  import opened System
  import opened SystemShape
  import opened SystemDurable
  import opened SystemCounts
  import opened SystemLives
  import C = SystemCoupling
  import R = SystemRefused
  import T = SystemTrace
  import U = SystemUntried
  import A = SystemAttempts
  import Y = SystemTally
  import P = SystemStopped
  import Splitting

  ghost predicate Inv(s: Sys) {
    && Shape(s) && Durable(s) && C.Coupled(s) && Counted(s) && BaseOk(s) && LivesOk(s)
    && R.RefusedOk(s) && T.Traced(s) && T.Timed(s) && T.AskedOk(s.log.orig, s.log.requests)
    && U.UntriedOk(s) && A.AttemptsOk(s) && Y.TallyOk(s) && P.StoppedOk(s)
  }

  lemma InitialInv(s: Sys)
    requires Initial(s)
    ensures Inv(s)
  {
    InitialPlaces(s);
    InitialRecord(s);
  }

  lemma InitialPlaces(s: Sys)
    requires Initial(s)
    ensures Shape(s) && Durable(s) && C.Coupled(s) && Counted(s) && BaseOk(s)
  {
  }

  lemma InitialRecord(s: Sys)
    requires Initial(s)
    ensures LivesOk(s) && R.RefusedOk(s) && T.Traced(s) && T.Timed(s) && U.UntriedOk(s) && A.AttemptsOk(s)
    ensures Y.TallyOk(s) && P.StoppedOk(s) && T.AskedOk(s.log.orig, s.log.requests)
  {
  }

  lemma StepInv(s: Sys, a: Action)
    requires Inv(s) && Step(s, a).Some?
    ensures Inv(Step(s, a).value)
  {
    StepShape(s, a);
    StepDurable(s, a);
    C.StepCoupled(s, a);
    StepCounted(s, a);
    StepLives(s, a);
    R.StepRefused(s, a);
    T.StepTraced(s, a);
    T.StepTimed(s, a);
    T.StepAsked(s, a);
    U.StepUntried(s, a);
    A.StepAttempts(s, a);
    Y.StepTally(s, a);
    P.StepStopped(s, a);
  }

  lemma {:induction false} RunInv(s: Sys, actions: seq<Action>)
    requires Inv(s) && Run(s, actions).Some?
    ensures Inv(Run(s, actions).value)
    decreases |actions|
  {
    if actions == [] {
    } else {
      StepInv(s, actions[0]);
      RunInv(Step(s, actions[0]).value, actions[1..]);
    }
  }

  lemma ReachableCounts(s: Sys)
    requires Reachable(s)
    ensures Counted(s)
  {
    ReachableInv(s);
  }

  lemma ReachableTrace(s: Sys)
    requires Reachable(s)
    ensures T.Traced(s) && T.Timed(s) && T.AskedOk(s.log.orig, s.log.requests)
  {
    ReachableInv(s);
  }

  lemma HeldUnderOwnId(s: Sys, id: Id)
    requires Reachable(s) && id in s.mem.entries
    ensures s.mem.entries[id].id == id
  {
    ReachableInv(s);
  }

  lemma ReachableInv(s: Sys)
    requires Reachable(s)
    ensures Inv(s)
  {
    var s0, actions :| Initial(s0) && Run(s0, actions) == Some(s);
    InitialInv(s0);
    RunInv(s0, actions);
  }

  // ----- durability -----

  /**
    An id answered `Queued` has a complete copy of its message in the queue directory or
    in the failed directory, or the message has been delivered in full.
  */
  lemma AcknowledgedIsDurable(s: Sys, id: Id)
    requires Reachable(s) && id in s.log.acked
    ensures id in s.log.orig
    ensures var message := s.log.orig[id];
            || (id in s.disk.queue && s.disk.queue[id].Complete? && s.disk.queue[id].entry.SameMessage(message))
            || (exists name :: name in s.disk.failed && s.disk.failed[name].Complete?
                               && s.disk.failed[name].entry.SameMessage(message))
            || Deliveries(s.log.receipts, id) >= 1
  {
    ReachableInv(s);
    assert Kept(s.disk, s.log.receipts, s.log.orig[id]);
    if SetAsideAs(s.disk.failed, s.log.orig[id]) {
      var name :| name in s.disk.failed && s.disk.failed[name].Complete?
          && s.disk.failed[name].entry.SameMessage(s.log.orig[id]);
      assert name in s.disk.failed && s.disk.failed[name].Complete?
             && s.disk.failed[name].entry.SameMessage(s.log.orig[id]);
    }
  }

  /** A crash in the middle of a write never leaves a torn or misnamed file in the queue directory. */
  lemma QueueFilesAreWhole(s: Sys, id: Id)
    requires Reachable(s) && id in s.disk.queue
    ensures s.disk.queue[id].Complete? && s.disk.queue[id].entry.id == id
    ensures id in s.log.orig && s.disk.queue[id].entry.SameMessage(s.log.orig[id])
  {
    ReachableInv(s);
  }

  // ----- disk and memory -----

  /** Memory holds exactly `e` for its id: the worker, the channel, or a handler that has stored it. */
  ghost predicate Holds(m: Mem, e: QueueEntry) {
    || (e.id in m.entries && m.entries[e.id] == e)
    || e in m.channel
    || (exists c :: c in m.handlers && Stored(m.handlers[c]) && m.handlers[c].e == e)
  }

  /**
    At the loop head, for an id no file operation has failed on since the process
    started: the file is there exactly when memory holds the entry, with that content.
  */
  lemma DiskIsMemory(s: Sys, e: QueueEntry)
    requires Reachable(s) && s.phase.Up? && s.mem.pc == Head && e.id !in s.log.faulty
    ensures e.id in s.disk.queue && s.disk.queue[e.id] == Complete(e) <==> Holds(s.mem, e)
  {
    ReachableInv(s);
    if e.id in s.disk.queue && s.disk.queue[e.id] == Complete(e) {
      HeldIfStored(s, e);
    }
    if Holds(s.mem, e) {
      if e in s.mem.channel {
        var i :| 0 <= i < |s.mem.channel| && s.mem.channel[i] == e;
        assert s.disk.queue[s.mem.channel[i].id] == Complete(s.mem.channel[i]);
      }
    }
  }

  lemma HeldIfStored(s: Sys, e: QueueEntry)
    requires Shape(s) && Durable(s) && C.Coupled(s)
    requires s.phase.Up? && s.mem.pc == Head && e.id !in s.log.faulty
    requires e.id in s.disk.queue && s.disk.queue[e.id] == Complete(e)
    ensures Holds(s.mem, e)
  {
    assert C.Answered(s.mem, e.id);
    if InChannel(s.mem.channel, e.id) {
      var i :| 0 <= i < |s.mem.channel| && s.mem.channel[i].id == e.id;
      assert s.disk.queue[s.mem.channel[i].id] == Complete(s.mem.channel[i]);
    } else if C.OwnedStored(s.mem.handlers, e.id) {
      var c :| c in s.mem.handlers && Stored(s.mem.handlers[c]) && s.mem.handlers[c].e.id == e.id;
      assert s.disk.queue[e.id] == Complete(s.mem.handlers[c].e);
    }
  }

  /** ... and no id is held in two places at once. */
  lemma PlacesAreDisjoint(s: Sys, id: Id)
    requires Reachable(s)
    ensures !(id in s.mem.entries && InChannel(s.mem.channel, id))
    ensures !(id in s.mem.entries && Owned(s.mem.handlers, id))
    ensures !(InChannel(s.mem.channel, id) && Owned(s.mem.handlers, id))
    ensures forall c, d :: c in s.mem.handlers && d in s.mem.handlers && c != d
                           && Owns(s.mem.handlers[c]) && Owns(s.mem.handlers[d]) ==>
              s.mem.handlers[c].e.id != s.mem.handlers[d].e.id
    ensures forall i, j :: 0 <= i < j < |s.mem.channel| ==> s.mem.channel[i].id != s.mem.channel[j].id
  {
    ReachableInv(s);
    if InChannel(s.mem.channel, id) {
      var i :| 0 <= i < |s.mem.channel| && s.mem.channel[i].id == id;
      assert s.mem.channel[i].id !in s.mem.entries;
    }
    if Owned(s.mem.handlers, id) {
      var c :| c in s.mem.handlers && Owns(s.mem.handlers[c]) && s.mem.handlers[c].e.id == id;
      assert !Beyond(s.mem.entries, s.mem.channel, s.mem.pc, id);
    }
  }

  ghost predicate CleanLoad(a: Action) {
    a.OfProcess? && a.pa.Load? && a.pa.readable && a.pa.movable
  }

  /** Every temporary file is still to be met. */
  ghost predicate TempsToCome(s: Sys) {
    s.phase.Booting? && forall id :: id in s.disk.temps ==> Temp(id) in s.phase.todo
  }

  lemma CleanLoadKeepsQueue(s: Sys, a: Action)
    requires Shape(s) && s.phase.Booting? && CleanLoad(a) && Step(s, a).Some?
    ensures var s' := Step(s, a).value;
            && s'.phase.Booting? && s'.disk.queue == s.disk.queue && s'.log.faulty == s.log.faulty
            && (TempsToCome(s) ==> TempsToCome(s'))
  {
  }

  lemma {:induction false} CleanLoadsKeepQueue(s: Sys, loads: seq<Action>)
    requires Inv(s) && s.phase.Booting? && Run(s, loads).Some?
    requires forall i :: 0 <= i < |loads| ==> CleanLoad(loads[i])
    ensures var s' := Run(s, loads).value;
            && s'.phase.Booting? && s'.disk.queue == s.disk.queue && s'.log.faulty == s.log.faulty
            && (TempsToCome(s) ==> TempsToCome(s'))
    decreases |loads|
  {
    if loads == [] {
    } else {
      StepInv(s, loads[0]);
      CleanLoadKeepsQueue(s, loads[0]);
      CleanLoadsKeepQueue(Step(s, loads[0]).value, loads[1..]);
    }
  }

  /**
    A crash at the loop head loses nothing: whatever order the directory is read in, the
    next start holds exactly what memory held.
  */
  lemma RestartRebuildsMemory(s: Sys, config: Config, loads: seq<Action>, s': Sys, e: QueueEntry)
    requires Reachable(s) && s.phase.Up? && s.mem.pc == Head && s.log.faulty == {}
    requires forall i :: 0 <= i < |loads| ==> CleanLoad(loads[i])
    requires Run(s, [OfProcess(Crash), OfProcess(Boot(config))] + loads + [OfProcess(Start)]) == Some(s')
    ensures e.id in s'.mem.entries && s'.mem.entries[e.id] == e <==> Holds(s.mem, e)
  {
    ReachableInv(s);
    DiskIsMemory(s, e);
    LoadedRun(s, config, loads);
    var booting := Rebooted(s, config);
    RebootInv(s, config);
    CleanLoadsKeepQueue(booting, loads);
    RunInv(booting, loads);
    LoadedIsDisk(Run(booting, loads).value, e);
  }

  /** After a crash anywhere, such a start leaves no temporary file and keeps the queue files. */
  lemma RestartClearsTemps(s: Sys, config: Config, loads: seq<Action>, s': Sys)
    requires Reachable(s) && s.phase.Up?
    requires forall i :: 0 <= i < |loads| ==> CleanLoad(loads[i])
    requires Run(s, [OfProcess(Crash), OfProcess(Boot(config))] + loads + [OfProcess(Start)]) == Some(s')
    ensures s'.disk.temps == map[] && s'.disk.queue == s.disk.queue
  {
    ReachableInv(s);
    LoadedRun(s, config, loads);
    var booting := Rebooted(s, config);
    RebootInv(s, config);
    RebootedTemps(s, config);
    CleanLoadsKeepQueue(booting, loads);
    NoTempsToCome(Run(booting, loads).value);
  }

  lemma RebootedTemps(s: Sys, config: Config)
    ensures TempsToCome(Rebooted(s, config)) && Rebooted(s, config).disk == s.disk
  {
  }

  lemma NoTempsToCome(s: Sys)
    requires TempsToCome(s) && s.phase == Booting({})
    ensures s.disk.temps == map[]
  {
  }

  /** The state in which the process starts loading after a crash of `s`. */
  function Rebooted(s: Sys, config: Config): Sys {
    s.(phase := Booting(Names(s.disk)), config := config, mem := BLANK,
       log := Limited(s.log, config.retry.maxAttempts).(
                unsaved := s.log.unsaved + LostRetry(s.mem.pc), starts := s.log.starts + 1,
                faulty := {}, ended := multiset{}, tried := multiset{}, base := |s.log.receipts|))
  }

  lemma RebootSteps(s: Sys, config: Config)
    requires s.phase.Up?
    ensures Step(s, OfProcess(Crash)).Some?
    ensures Step(Step(s, OfProcess(Crash)).value, OfProcess(Boot(config))) == Some(Rebooted(s, config))
  {
  }

  lemma RebootInv(s: Sys, config: Config)
    requires Inv(s) && s.phase.Up?
    ensures Inv(Rebooted(s, config))
  {
    RebootSteps(s, config);
    StepInv(s, OfProcess(Crash));
    StepInv(Step(s, OfProcess(Crash)).value, OfProcess(Boot(config)));
  }

  /** Once every name is loaded without a fault, the entries are the queue files. */
  lemma LoadedIsDisk(s: Sys, e: QueueEntry)
    requires Inv(s) && s.phase == Booting({}) && s.log.faulty == {}
    ensures e.id in s.mem.entries && s.mem.entries[e.id] == e
            <==> e.id in s.disk.queue && s.disk.queue[e.id] == Complete(e)
  {
  }

  lemma LoadedRun(s: Sys, config: Config, loads: seq<Action>)
    requires Run(s, [OfProcess(Crash), OfProcess(Boot(config))] + loads + [OfProcess(Start)]).Some?
    requires s.phase.Up?
    ensures var booting := Rebooted(s, config);
            && Run(booting, loads).Some?
            && Run(booting, loads).value.phase == Booting({})
            && Run(s, [OfProcess(Crash), OfProcess(Boot(config))] + loads + [OfProcess(Start)]).value.disk
               == Run(booting, loads).value.disk
            && Run(s, [OfProcess(Crash), OfProcess(Boot(config))] + loads + [OfProcess(Start)]).value.mem.entries
               == Run(booting, loads).value.mem.entries
  {
    var crash, boot, start := OfProcess(Crash), OfProcess(Boot(config)), [OfProcess(Start)];
    var all := [crash, boot] + loads + start;
    RebootSteps(s, config);
    assert all[0] == crash && all[1..][0] == boot && all[1..][1..] == loads + start;
    RunAppend(Rebooted(s, config), loads, start);
    assert start[1..] == [];
    StartStep(Run(Rebooted(s, config), loads).value);
  }

  lemma StartStep(s: Sys)
    requires Step(s, OfProcess(Start)).Some?
    ensures s.phase == Booting({}) && Step(s, OfProcess(Start)).value.mem.entries == s.mem.entries
    ensures Step(s, OfProcess(Start)).value.disk == s.disk
  {
  }

  // ----- duplicates -----

  /** Complete deliveries never exceed one plus the restarts since the message was accepted. */
  lemma DeliveriesBoundedByRestarts(s: Sys, id: Id)
    requires Reachable(s)
    ensures id in s.log.orig ==> id in s.log.born && Deliveries(s.log.receipts, id) <= s.log.starts - s.log.born[id] + 1
    ensures id !in s.log.orig ==> Deliveries(s.log.receipts, id) == 0
  {
    ReachableInv(s);
  }

  /** Within one process lifetime an id is delivered or given up at most once, and never both. */
  lemma OneOutcomePerLifetime(s: Sys, id: Id)
    requires Reachable(s)
    ensures s.log.ended[id] <= 1
    ensures s.phase.Up? && Active(s.mem, id) ==> s.log.ended[id] == 0
  {
    ReachableInv(s);
  }

  /**
    With a limit set, one process lifetime attempts an id at most as often as its state at
    the start, or its creation since, allows: max(1, max_attempts - attempts). A file
    whose counter is about to wrap around is the exception.
  */
  lemma AttemptsBoundedPerLifetime(s: Sys, id: Id)
    requires Reachable(s) && s.phase.Up? && s.config.retry.maxAttempts > 0 && A.Sound(s.log.loaded, id)
    ensures s.log.tried[id] <= A.Allowance(s.config.retry, s.log.loaded, id)
  {
    ReachableInv(s);
  }

  /**
    Over all lifetimes, where every start has set a limit: at most the largest limit, one
    more per restart since the creation, and one more per retry state that failed to
    reach the disk.
  */
  lemma AttemptsBoundedAcrossRestarts(s: Sys, id: Id)
    requires Reachable(s) && s.log.limited && id in s.log.orig
    ensures id in s.log.born
    ensures s.log.everTried[id] <= s.log.limit + (s.log.starts - s.log.born[id]) + s.log.lost[id]
  {
    ReachableInv(s);
  }

  // ----- bounds and counters -----

  /**
    With a size limit set, the daemon never holds more than the limit, a full channel
    and one request per connection ever open at once, unless it restored more.
  */
  lemma RealQueueBound(s: Sys)
    requires Reachable(s) && s.phase.Up? && s.config.maxQueueSize > 0
    ensures QueueLoad(s.mem) <= Max(s.log.restored, s.config.maxQueueSize + 1024 + s.log.peak)
    ensures |s.mem.handlers| <= s.log.peak && |s.mem.channel| <= 1024
  {
    ReachableCounts(s);
  }

  /** The worker no longer holds an entry it has not yet taken off the published count. */
  predicate Clearing(pc: WorkerPc) {
    pc.Unlinking? || pc.Counting? || pc.Forgotten?
  }

  /** How many entries the worker holds beyond the published count. */
  function Lag(pc: WorkerPc): int {
    if pc.Inserted? then 1 else if Clearing(pc) then -1 else 0
  }

  /**
    Where the size check goes wrong: it lets a request in over the limit exactly when the
    channel, the requests past the check and the worker's lag make up what the published
    count lacks, and turns one away under the limit exactly while the worker is clearing
    the last entry that counted.
  */
  lemma SizeCheckGoesWrong(s: Sys, c: Conn)
    requires Reachable(s) && s.phase.Up? && c in s.mem.handlers && s.mem.handlers[c].Checking?
    requires s.config.maxQueueSize > 0
    ensures HandlerStep(s, c, Proceed(true)).Some?
    ensures var limit, load := s.config.maxQueueSize, QueueLoad(s.mem);
            var rejected := HandlerStep(s, c, Proceed(true)).value.mem.handlers[c].Removing?;
            && (!rejected && load >= limit <==>
                  s.mem.pending < limit
                  <= s.mem.pending + |s.mem.channel| + |Senders(s.mem.handlers)| + Lag(s.mem.pc))
            && (rejected && load < limit <==>
                  Clearing(s.mem.pc) && s.mem.pending == limit && s.mem.channel == [] && Senders(s.mem.handlers) == {})
  {
    ReachableInv(s);
    CheckReads(s, c);
    CountAgainstLoad(s.mem, s.config.maxQueueSize);
  }

  lemma CheckReads(s: Sys, c: Conn)
    requires s.phase.Up? && c in s.mem.handlers && s.mem.handlers[c].Checking? && s.config.maxQueueSize > 0
    ensures HandlerStep(s, c, Proceed(true)).Some?
    ensures HandlerStep(s, c, Proceed(true)).value.mem.handlers[c].Removing? <==> s.mem.pending >= s.config.maxQueueSize
  {
  }

  lemma CountAgainstLoad(m: Mem, limit: nat)
    requires PendingOk(m.pc, m.pending, |m.entries|)
    ensures QueueLoad(m) == m.pending + |m.channel| + |Senders(m.handlers)| + Lag(m.pc)
    ensures m.pending >= limit > QueueLoad(m) <==>
              Clearing(m.pc) && m.pending == limit && m.channel == [] && Senders(m.handlers) == {}
  {
  }

  /** The published count is off by at most one, and the delivered count by the delivery being recorded. */
  lemma CountersAreClose(s: Sys)
    requires Reachable(s) && s.phase.Up?
    ensures |s.mem.entries| <= s.mem.pending + 1 && s.mem.pending <= |s.mem.entries| + 1
    ensures s.mem.pc == Head ==> s.mem.pending == |s.mem.entries| && s.mem.delivered == |s.log.receipts| - s.log.base
    ensures s.mem.delivered <= |s.log.receipts| - s.log.base <= s.mem.delivered + 1
  {
    ReachableCounts(s);
  }

  /** Accepted by a connection, and not yet in the worker's published count. */
  ghost predicate Unpublished(m: Mem, id: Id) {
    InChannel(m.channel, id) || (m.pc.Inserted? && m.pc.id == id)
  }

  /**
    When a flush reads zero, everything acknowledged earlier is delivered, set aside by
    the worker, unreadable at a start, still in the channel or just being accepted; or
    the worker is gone and the file waits for the next start.
  */
  lemma FlushedZero(s: Sys, id: Id)
    requires Reachable(s) && s.phase.Up? && s.mem.pending == 0 && id in s.log.acked
    ensures C.Finished(s.log, id) || Unpublished(s.mem, id) || (s.mem.pc == Stopped && id in s.disk.queue)
  {
    ReachableInv(s);
    assert C.Finished(s.log, id) || C.SentHeld(s, id);
    if id in s.mem.entries {
      OnlyInserted(s, id);
    }
  }

  lemma OnlyInserted(s: Sys, id: Id)
    requires Shape(s) && Counted(s) && s.phase.Up? && s.mem.pending == 0 && id in s.mem.entries
    ensures s.mem.pc.Inserted? && s.mem.pc.id == id
  {
    assert |s.mem.entries| >= 1 by {
      SizeAfterRemove(s.mem.entries, id);
    }
    if s.mem.pc.id != id {
      SizeAfterRemove(s.mem.entries, id);
      SizeAfterRemove(s.mem.entries - {id}, s.mem.pc.id);
    }
  }

  /** An id that is not in the published count yet has had no outcome. */
  lemma UnpublishedIsUnfinished(s: Sys, id: Id)
    requires Reachable(s) && Unpublished(s.mem, id)
    ensures !C.Finished(s.log, id)
  {
    ReachableInv(s);
    assert U.Early(s.mem, id);
  }

  predicate SetAside(log: Log, id: Id) {
    id in log.givenUp || id in log.skipped
  }

  ghost predicate Delivered(log: Log, id: Id) {
    Deliveries(log.receipts, id) >= 1
  }

  /**
    What zero is worth while the worker runs: everything acknowledged was delivered
    exactly when nothing acknowledged is in the channel or just being accepted, and
    whatever the worker gave up on, or could not read at a start, had been delivered.
    Everything is finished, delivered or not, exactly when the first half holds.
  */
  lemma FlushedZeroExactly(s: Sys)
    requires Reachable(s) && s.phase.Up? && s.mem.pc != Stopped && s.mem.pending == 0
    ensures (forall id :: id in s.log.acked ==> Delivered(s.log, id))
            <==> (forall id :: id in s.log.acked ==>
                    !Unpublished(s.mem, id) && (SetAside(s.log, id) ==> Delivered(s.log, id)))
    ensures forall id :: id in s.log.acked ==> (C.Finished(s.log, id) <==> !Unpublished(s.mem, id))
  {
    forall id | id in s.log.acked ensures C.Finished(s.log, id) <==> !Unpublished(s.mem, id) {
      FlushedZero(s, id);
      if Unpublished(s.mem, id) {
        UnpublishedIsUnfinished(s, id);
      }
    }
  }

  /**
    ... and once it has stopped: an acknowledged message on which no file operation has
    failed since the start is finished exactly when its file is gone from the queue, and
    delivered exactly when, besides, it was not set aside undelivered.
  */
  lemma StoppedZeroExactly(s: Sys, id: Id)
    requires Reachable(s) && s.phase.Up? && s.mem.pc == Stopped && s.mem.pending == 0
    requires id in s.log.acked && id !in s.log.faulty
    ensures C.Finished(s.log, id) <==> id !in s.disk.queue
    ensures Delivered(s.log, id) <==> id !in s.disk.queue && (SetAside(s.log, id) ==> Delivered(s.log, id))
  {
    ReachableInv(s);
    FlushedZero(s, id);
    StoppedChannelEmpty(s, id);
    if id in s.disk.queue {
      assert P.Explained(s.mem, s.log, id);
      AckedIsHandedOver(s, id);
    }
  }

  lemma StoppedChannelEmpty(s: Sys, id: Id)
    requires Shape(s) && Counted(s) && s.phase.Up? && s.mem.pc == Stopped && s.mem.pending == 0
    ensures id !in s.mem.entries && !Unpublished(s.mem, id)
  {
  }

  lemma AckedIsHandedOver(s: Sys, id: Id)
    requires Durable(s) && id in s.log.acked
    ensures !C.OwnedStored(s.mem.handlers, id)
  {
  }

  /**
    `Queued` means it will be tried until delivered or abandoned: while the worker runs,
    an acknowledged message is held unless it was delivered, set aside, or unreadable at
    a start.
  */
  lemma AcknowledgedIsHeld(s: Sys, id: Id)
    requires Reachable(s) && s.phase.Up? && s.mem.pc != Stopped && id in s.log.acked
    ensures C.Finished(s.log, id) || (id in s.disk.queue && (id in s.mem.entries || InChannel(s.mem.channel, id)))
  {
    ReachableInv(s);
    assert C.Finished(s.log, id) || C.SentHeld(s, id);
  }

  // ----- rejection -----

  /**
    An id answered `Error` whose file was not left behind by a failed removal is nowhere
    on disk or in memory, and no call to Telegram was ever made for it.
  */
  lemma RejectedStaysRejected(s: Sys, id: Id)
    requires Reachable(s) && id in s.log.refused && id !in s.log.undone
    ensures id !in s.disk.queue && id !in s.mem.entries && !InChannel(s.mem.channel, id) && !Owned(s.mem.handlers, id)
    ensures id !in s.log.sent && !R.OnWire(s.log.wire, id) && Deliveries(s.log.receipts, id) == 0
  {
    ReachableInv(s);
    assert R.Gone(s, id);
  }

  // ----- the trace -----

  /**
    A delivery on record is one attempt whose calls were all accepted and whose texts, in
    order, are the whole body of the message as it was accepted.
  */
  lemma DeliveriesAreWhole(s: Sys, i: nat)
    requires Reachable(s) && i < |s.log.receipts|
    ensures var r := s.log.receipts[i];
            var n := |ChunksOf(r.entry, r.target)|;
            && r.entry.id in s.log.orig && r.entry.SameMessage(s.log.orig[r.entry.id])
            && 1 <= n <= r.at <= |s.log.wire|
            && (forall j :: r.at - n <= j < r.at ==> s.log.wire[j].id == r.entry.id && s.log.wire[j].ok)
            && Splitting.Concat(seq(n, j requires 0 <= j < n => s.log.wire[r.at - n + j].text))
               == Escaping.BodyOf(s.log.orig[r.entry.id].message, r.target)
  {
    ReachableTrace(s);
    var r := s.log.receipts[i];
    assert T.ReceiptOk(s.log.wire, s.log.orig, r);
    SpokenTexts(s.log.wire, r.entry, r.target, r.at);
  }

  lemma SpokenTexts(wire: seq<ApiCall>, e: QueueEntry, target: Target, at: nat)
    requires T.SpokenBefore(wire, e, target, at, |ChunksOf(e, target)|)
    ensures var n := |ChunksOf(e, target)|;
            && 1 <= n
            && (forall j :: at - n <= j < at ==> wire[j].id == e.id && wire[j].ok)
            && Splitting.Concat(seq(n, j requires 0 <= j < n => wire[at - n + j].text))
               == Escaping.BodyOf(e.message, target)
  {
    var body := Escaping.BodyOf(e.message, target);
    var n := |ChunksOf(e, target)|;
    assert seq(n, j requires 0 <= j < n => wire[at - n + j].text) == ChunksOf(e, target);
    Splitting.SplitConcat(body, TelegramClient.MAX_MESSAGE_CHARS);
    TelegramClient.ChunksExist(body);
  }

  /**
    ... and what was delivered is what was asked for: the texts of its calls, in order,
    say the prefix of the target, then the title and the text of the request under the
    delivered id, in the format it asked for or else the target's.
  */
  lemma DeliveredAsRequested(s: Sys, i: nat)
    requires Reachable(s) && i < |s.log.receipts|
    ensures var r := s.log.receipts[i];
            && r.entry.id in s.log.requests
            && var n, request := |ChunksOf(r.entry, r.target)|, s.log.requests[r.entry.id];
            && 1 <= n <= r.at <= |s.log.wire|
            && (forall j :: r.at - n <= j < r.at ==> s.log.wire[j].id == r.entry.id && s.log.wire[j].ok)
            && Escaping.Says(Splitting.Concat(seq(n, j requires 0 <= j < n => s.log.wire[r.at - n + j].text)),
                             if r.target.prefix.Some? then r.target.prefix.value else "",
                             request.title, request.text,
                             if request.format.Some? then request.format.value else r.target.format)
  {
    ReachableTrace(s);
    DeliveriesAreWhole(s, i);
    var r := s.log.receipts[i];
    Escaping.BodySays(s.log.orig[r.entry.id].message, r.target);
  }

  /**
    While the clock has not gone back, no deadline has wrapped around and the retry
    state of `id` has always reached the disk: a held entry is due no earlier than its
    creation plus every delay it was ever assigned, across restarts.
  */
  lemma DelaysAddUp(s: Sys, id: Id)
    requires Reachable(s) && s.log.steady && id !in s.log.unsaved && s.phase.Up? && s.mem.pc == Head
    requires id in s.mem.entries
    ensures id in s.log.delays && id in s.log.orig
    ensures s.mem.entries[id].nextAttemptAt >= s.log.orig[id].createdAt + s.log.delays[id]
  {
    ReachableTrace(s);
    HeldUnderOwnId(s, id);
    assert T.Delayed(s.log.orig, s.log.delays, s.mem.entries[id]);
  }
}
