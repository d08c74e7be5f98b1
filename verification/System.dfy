/**
  The whole daemon as one step machine: disk, process memory, connection handlers and
  the worker, with every file operation, counter update and channel operation its own
  step, a fault possible at each file operation and a crash possible anywhere.

  Completed file operations survive a crash; memory does not. `Log` records what has
  happened so far, for the theorems only: no step depends on it except to keep ids fresh.
*/
module System {
  import opened Messages
  import opened QueueStore
  import opened Scheduling
  import opened RetryPolicy
  import TelegramClient
  import WorkerLoop
  import Escaping

  type Conn = nat

  /** Where one connection's task stands; one request in flight per connection. */
  datatype Handler =
    | Idle
    | Opening(e: QueueEntry)    // about to create the temporary file
    | Writing(e: QueueEntry)
    | Renaming(e: QueueEntry)
    | Checking(e: QueueEntry)   // stored, about to read the published count
    | Sending(e: QueueEntry)    // past the size check, waiting for room in the channel
    | Removing(e: QueueEntry)   // rejected, about to remove the stored file
    | Acking(id: Id)            // about to answer `Queued`
    | Refusing(id: Id)          // about to answer `Error`

  datatype WorkerPc =
    | Head
    | Draining
    | Waiting
    | Inserted(id: Id, draining: bool)  // accepted, count not yet published
    | Picking
    | Talking(e: QueueEntry, target: Target, k: nat)  // k chunks accepted so far
    | Unlinking(id: Id)                 // delivered and forgotten, file still there
    | Counting(id: Id)
    | Forgotten                         // an entry is gone, count not yet published
    | DeadOpening(e: QueueEntry)
    | DeadWriting(e: QueueEntry)
    | DeadUnlinking(e: QueueEntry)
    | Dropping(e: QueueEntry)
    | RetryOpening(e: QueueEntry)
    | RetryWriting(e: QueueEntry)
    | RetryRenaming(e: QueueEntry)
    | Reinserting(e: QueueEntry)
    | Stopped

  datatype Phase = Down | Booting(todo: set<DirName>) | Up

  datatype Mem = Mem(
    entries: map<Id, QueueEntry>,
    channel: seq<QueueEntry>,
    pending: nat,
    delivered: nat,
    pc: WorkerPc,
    handlers: map<Conn, Handler>)

  const BLANK: Mem := Mem(map[], [], 0, 0, Stopped, map[])

  datatype ApiCall = ApiCall(id: Id, text: string, ok: bool)

  /** A complete delivery of `entry` to `target`, whose last call is number `at` minus one. */
  datatype Receipt = Receipt(entry: QueueEntry, target: Target, at: nat)

  datatype Log = Log(
    requests: map<Id, NotifyRequest>,  // what was asked for
    orig: map<Id, QueueEntry>,  // every entry ever created, as created
    born: map<Id, nat>,         // the process start it was created in
    sent: set<Id>,              // ids ever put in the channel
    acked: set<Id>,             // ids answered `Queued`
    refused: set<Id>,           // ids answered `Error`
    undone: set<Id>,            // rejected ids whose removal failed
    givenUp: set<Id>,           // ids ever set aside by the worker
    skipped: set<Id>,           // ids whose file could not be read at some start
    wire: seq<ApiCall>,
    receipts: seq<Receipt>,
    delays: map<Id, nat>,       // sum of the delays ever assigned
    unsaved: set<Id>,           // ids with a retry state that did not reach the disk
    lost: multiset<Id>,         // retry states that did not reach the disk
    steady: bool,               // the clock never went back and no deadline wrapped around
    everTried: multiset<Id>,    // attempts ever started
    starts: nat,                // process starts so far
    limit: u32,                 // the largest `max_attempts` of any start
    limited: bool,              // every start has set one
    // of the current process lifetime:
    faulty: set<Id>,            // ids for which a file operation failed
    ended: multiset<Id>,        // terminal outcomes: delivered or given up
    tried: multiset<Id>,        // attempts started
    loaded: map<Id, QueueEntry>,  // entries loaded at the start
    base: nat,                  // receipts at the start
    restored: nat,              // how many entries were loaded
    peak: nat)                  // most connections open at once

  datatype Sys = Sys(disk: Disk, phase: Phase, mem: Mem, log: Log, config: Config, clock: u64)

  // ----- vocabulary -----

  function ChunksOf(e: QueueEntry, target: Target): seq<string> {
    TelegramClient.Chunks(Escaping.BodyOf(e.message, target))
  }

  function Deliveries(receipts: seq<Receipt>, id: Id): nat {
    if receipts == [] then 0
    else Deliveries(receipts[..|receipts| - 1], id) + if receipts[|receipts| - 1].entry.id == id then 1 else 0
  }

  function At(s: Sys, c: Conn, h: Handler): Sys {
    s.(mem := s.mem.(handlers := s.mem.handlers[c := h]))
  }

  function Pc(s: Sys, pc: WorkerPc): Sys {
    s.(mem := s.mem.(pc := pc))
  }

  function OnDisk(s: Sys, disk: Disk): Sys {
    s.(disk := disk)
  }

  /** A file operation on behalf of `id` has failed. */
  function Fault(s: Sys, id: Id): Sys {
    s.(log := s.log.(faulty := s.log.faulty + {id}))
  }

  function Unsaved(s: Sys, id: Id): Sys {
    s.(log := s.log.(unsaved := s.log.unsaved + {id}, lost := s.log.lost + multiset{id}))
  }

  // ----- connection handlers -----

  datatype HandlerAct = Connect | Disconnect | Receive(e: QueueEntry, request: NotifyRequest) | Proceed(ok: bool)

  /** `Queue::store`, one file operation at a time. */
  function HandlerStore(s: Sys, c: Conn, h: Handler, ok: bool): Option<Sys> {
    match h
    case Opening(e) =>
      Some(if ok then At(OnDisk(s, OpenTemp(s.disk, e.id)), c, Writing(e)) else At(Fault(s, e.id), c, Refusing(e.id)))
    case Writing(e) =>
      Some(if ok then At(OnDisk(s, FillTemp(s.disk, e)), c, Renaming(e)) else At(Fault(s, e.id), c, Refusing(e.id)))
    case Renaming(e) =>
      if !ok then Some(At(Fault(s, e.id), c, Refusing(e.id)))
      else if e.id !in s.disk.temps then None
      else Some(At(OnDisk(s, RenameTemp(s.disk, e.id)), c, Checking(e)))
    case _ => None
  }

  /** `WorkerHandle::submit`, the removal after a rejection, and the reply. */
  function HandlerSubmit(s: Sys, c: Conn, h: Handler, ok: bool): Option<Sys> {
    match h
    case Checking(e) =>
      var full := s.config.maxQueueSize > 0 && s.mem.pending >= s.config.maxQueueSize;
      Some(At(s, c, if full then Removing(e) else Sending(e)))
    case Sending(e) =>
      if s.mem.pc == Stopped then Some(At(s, c, Removing(e)))
      else if |s.mem.channel| < CHANNEL_CAPACITY then
        Some(s.(mem := s.mem.(channel := s.mem.channel + [e], handlers := s.mem.handlers[c := Acking(e.id)]),
                log := s.log.(sent := s.log.sent + {e.id})))
      else None
    case Removing(e) =>
      Some(if ok then At(OnDisk(s, Unlink(s.disk, e.id)), c, Refusing(e.id))
           else At(Fault(s, e.id), c, Refusing(e.id)).(log := Fault(s, e.id).log.(undone := s.log.undone + {e.id})))
    case Acking(id) => Some(At(s, c, Idle).(log := s.log.(acked := s.log.acked + {id})))
    case Refusing(id) => Some(At(s, c, Idle).(log := s.log.(refused := s.log.refused + {id})))
    case _ => None
  }

  /** A new entry: fresh id, never attempted, due at once. */
  predicate IsNew(s: Sys, e: QueueEntry) {
    e.id !in s.log.orig && e.attempts == 0 && e.lastError == None && e.createdAt == e.nextAttemptAt == s.clock
  }

  /** A request has become the entry `e`. */
  function Asked(log: Log, e: QueueEntry, request: NotifyRequest): Log {
    log.(orig := log.orig[e.id := e], requests := log.requests[e.id := request],
         born := log.born[e.id := log.starts], delays := log.delays[e.id := 0])
  }

  function HandlerStep(s: Sys, c: Conn, a: HandlerAct): Option<Sys> {
    if !s.phase.Up? then None
    else match a
      case Connect =>
        if c in s.mem.handlers then None
        else
          var open := |s.mem.handlers| + 1;
          Some(At(s, c, Idle).(log := s.log.(peak := if open > s.log.peak then open else s.log.peak)))
      case Disconnect =>
        if c in s.mem.handlers && s.mem.handlers[c] == Idle
        then Some(s.(mem := s.mem.(handlers := s.mem.handlers - {c}))) else None
      case Receive(e, request) =>
        if c in s.mem.handlers && s.mem.handlers[c] == Idle && IsNew(s, e) && Carries(e, request)
        then Some(At(s, c, Opening(e)).(log := Asked(s.log, e, request))) else None
      case Proceed(ok) =>
        if c !in s.mem.handlers then None
        else
          var h := s.mem.handlers[c];
          if h.Opening? || h.Writing? || h.Renaming? then HandlerStore(s, c, h, ok) else HandlerSubmit(s, c, h, ok)
  }

  // ----- the worker -----

  datatype WorkerAct =
    | Go(ok: bool)
    | TakeArrival                    // `recv` returns an entry in the idle select
    | Stop                           // shutdown, or the channel closed
    | Pick(entry: QueueEntry, resolution: Option<Target>, detail: string)
    | Answer(reply: TelegramClient.Reply)

  function Insert(s: Sys, draining: bool): Sys
    requires s.mem.channel != []
  {
    var e := s.mem.channel[0];
    s.(mem := s.mem.(entries := s.mem.entries[e.id := e], channel := s.mem.channel[1..],
                     pc := Inserted(e.id, draining)))
  }

  function Publish(s: Sys, pc: WorkerPc): Sys {
    s.(mem := s.mem.(pending := |s.mem.entries|, pc := pc))
  }

  /** The loop head, the idle select, the drain and `accept`. */
  ghost function WorkerTake(s: Sys, a: WorkerAct): Option<Sys> {
    match s.mem.pc
    case Head => if a.Go? then Some(Pc(s, if HasDue(s.mem.entries, s.clock) then Draining else Waiting)) else None
    case Draining =>
      if !a.Go? then None else Some(if s.mem.channel == [] then Pc(s, Picking) else Insert(s, true))
    case Waiting =>
      (match a
       case Go(_) => Some(Pc(s, Head))
       case TakeArrival => if s.mem.channel == [] then None else Some(Insert(s, false))
       case Stop => Some(s.(mem := s.mem.(channel := [], pc := Stopped)))
       case _ => None)
    case Inserted(_, draining) => if a.Go? then Some(Publish(s, if draining then Draining else Head)) else None
    case Forgotten => if a.Go? then Some(Publish(s, Head)) else None
    case _ => None
  }

  function Abandon(s: Sys, dead: QueueEntry): Sys {
    Pc(s, DeadOpening(dead)).(log := s.log.(givenUp := s.log.givenUp + {dead.id},
                                            ended := s.log.ended + multiset{dead.id}))
  }

  function Reschedule(s: Sys, next: QueueEntry, delay: nat): Sys {
    var total := (if next.id in s.log.delays then s.log.delays[next.id] else 0) + delay;
    Pc(s, RetryOpening(next)).(log := s.log.(delays := s.log.delays[next.id := total],
                                             steady := s.log.steady && s.clock + delay < U64_LIMIT))
  }

  /** An attempt starts. */
  function Attempt(s: Sys, e: QueueEntry, target: Target): Sys {
    Pc(s, Talking(e, target, 0)).(log := s.log.(tried := s.log.tried + multiset{e.id},
                                                     everTried := s.log.everTried + multiset{e.id}))
  }

  function Called(s: Sys, call: ApiCall): Sys {
    s.(log := s.log.(wire := s.log.wire + [call]))
  }

  /** The chunk `chunks[k]` was accepted; the last one completes a delivery. */
  function ChunkAccepted(s: Sys, e: QueueEntry, target: Target, k: nat): Sys
    requires k < |ChunksOf(e, target)|
  {
    var s1 := Pc(Called(s, ApiCall(e.id, ChunksOf(e, target)[k], true)), Talking(e, target, k + 1));
    if k + 1 < |ChunksOf(e, target)| then s1
    else s1.(log := s1.log.(receipts := s.log.receipts + [Receipt(e, target, |s1.log.wire|)],
                            ended := s.log.ended + multiset{e.id}))
  }

  function ChunkRejected(s: Sys, e: QueueEntry, target: Target, k: nat, error: SendError): Sys
    requires k < |ChunksOf(e, target)|
  {
    var s1 := Called(s, ApiCall(e.id, ChunksOf(e, target)[k], false));
    match Decide(s.config.retry, e, error, s.clock)
    case GiveUp(dead) => Abandon(s1, dead)
    case Retry(next, delay) => Reschedule(s1, next, delay)
  }

  /** `attempt_next` and `send_message`, and forgetting a delivered entry. */
  ghost function WorkerTalk(s: Sys, a: WorkerAct): Option<Sys> {
    match s.mem.pc
    case Picking =>
      (match a
       case Pick(e, resolution, detail) =>
         if !IsNextDue(s.mem.entries, s.clock, e) then None
         else if resolution.Some? then Some(Attempt(s, e, resolution.value))
         else Some(Abandon(s, WorkerLoop.WithReason(e, Unresolvable(detail))))
       case Go(_) => if HasDue(s.mem.entries, s.clock) then None else Some(Pc(s, Head))
       case _ => None)
    case Talking(e, target, k) =>
      if k < |ChunksOf(e, target)| then
        if !a.Answer? then None
        else Some(if a.reply.Accepted? then ChunkAccepted(s, e, target, k)
                  else ChunkRejected(s, e, target, k, a.reply.error))
      else if a.Go? then Some(s.(mem := s.mem.(entries := s.mem.entries - {e.id}, pc := Unlinking(e.id))))
      else None
    case Unlinking(id) =>
      if !a.Go? then None
      else Some(Pc(if a.ok then OnDisk(s, Unlink(s.disk, id)) else Fault(s, id), Counting(id)))
    case Counting(_) => if a.Go? then Some(Pc(s.(mem := s.mem.(delivered := s.mem.delivered + 1)), Forgotten)) else None
    case _ => None
  }

  /** `finish_failed`: write the failed file, remove the queue file, drop the entry. */
  function WorkerBury(s: Sys, ok: bool): Option<Sys> {
    match s.mem.pc
    case DeadOpening(e) =>
      Some(if ok then Pc(OnDisk(s, OpenFailed(s.disk, e)), DeadWriting(e)) else Pc(Fault(s, e.id), Dropping(e)))
    case DeadWriting(e) =>
      Some(if ok then Pc(OnDisk(s, FillFailed(s.disk, e)), DeadUnlinking(e)) else Pc(Fault(s, e.id), Dropping(e)))
    case DeadUnlinking(e) =>
      Some(Pc(if ok then OnDisk(s, Unlink(s.disk, e.id)) else Fault(s, e.id), Dropping(e)))
    case Dropping(e) =>
      Some(Pc(s.(mem := s.mem.(entries := s.mem.entries - {e.id})), Forgotten))
    case _ => None
  }

  /** Persisting the retry state, then putting the entry back. */
  function WorkerRetry(s: Sys, ok: bool): Option<Sys> {
    match s.mem.pc
    case RetryOpening(e) =>
      Some(if ok then Pc(OnDisk(s, OpenTemp(s.disk, e.id)), RetryWriting(e))
           else Pc(Unsaved(Fault(s, e.id), e.id), Reinserting(e)))
    case RetryWriting(e) =>
      Some(if ok then Pc(OnDisk(s, FillTemp(s.disk, e)), RetryRenaming(e))
           else Pc(Unsaved(Fault(s, e.id), e.id), Reinserting(e)))
    case RetryRenaming(e) =>
      if !ok then Some(Pc(Unsaved(Fault(s, e.id), e.id), Reinserting(e)))
      else if e.id !in s.disk.temps then None
      else Some(Pc(OnDisk(s, RenameTemp(s.disk, e.id)), Reinserting(e)))
    case Reinserting(e) =>
      Some(Pc(s.(mem := s.mem.(entries := s.mem.entries[e.id := e])), Head))
    case _ => None
  }

  predicate Burying(pc: WorkerPc) {
    pc.DeadOpening? || pc.DeadWriting? || pc.DeadUnlinking? || pc.Dropping?
  }

  predicate Retrying(pc: WorkerPc) {
    pc.RetryOpening? || pc.RetryWriting? || pc.RetryRenaming? || pc.Reinserting?
  }

  predicate Speaking(pc: WorkerPc) {
    pc.Picking? || pc.Talking? || pc.Unlinking? || pc.Counting?
  }

  ghost function WorkerStep(s: Sys, a: WorkerAct): Option<Sys> {
    if !s.phase.Up? then None
    else if Burying(s.mem.pc) then if a.Go? then WorkerBury(s, a.ok) else None
    else if Retrying(s.mem.pc) then if a.Go? then WorkerRetry(s, a.ok) else None
    else if Speaking(s.mem.pc) then WorkerTalk(s, a)
    else WorkerTake(s, a)
  }

  // ----- the process -----

  datatype ProcessAct =
    | Tick(now: u64)
    | Crash
    | Boot(config: Config)
    | Load(name: DirName, readable: bool, movable: bool)
    | Start

  function Names(d: Disk): set<DirName> {
    (set id | id in d.queue :: Final(id)) + (set id | id in d.temps :: Temp(id))
  }

  function Limited(log: Log, maxAttempts: u32): Log {
    log.(limit := if maxAttempts > log.limit then maxAttempts else log.limit, limited := log.limited && maxAttempts > 0)
  }

  /** The retry state on its way to the disk is lost with the process. */
  function LostRetry(pc: WorkerPc): set<Id> {
    if pc.RetryOpening? || pc.RetryWriting? || pc.RetryRenaming? then {pc.e.id} else {}
  }

  /** One directory entry is loaded, removed or set aside. */
  function LoadName(s: Sys, name: DirName, readable: bool, movable: bool): Sys
    requires s.phase.Booting? && (name.Final? || name.Temp?)
  {
    var st := LoadOne(Loading(s.disk, s.mem.entries), name, readable, movable);
    var failed := if name.Final? then !readable else !movable;
    Sys(st.disk, Booting(s.phase.todo - {name}), s.mem.(entries := st.entries),
        s.log.(faulty := if failed then s.log.faulty + {name.id} else s.log.faulty,
               skipped := if name.Final? && !readable then s.log.skipped + {name.id} else s.log.skipped),
        s.config, s.clock)
  }

  function ProcessStep(s: Sys, a: ProcessAct): Option<Sys> {
    match a
    case Tick(now) =>
      Some(s.(clock := now, log := s.log.(steady := s.log.steady && s.clock <= now)))
    case Crash =>
      if s.phase.Down? then None
      else Some(s.(phase := Down, mem := BLANK, log := s.log.(unsaved := s.log.unsaved + LostRetry(s.mem.pc))))
    case Boot(config) =>
      if !s.phase.Down? then None
      else Some(s.(phase := Booting(Names(s.disk)), config := config,
                   log := Limited(s.log, config.retry.maxAttempts).(
                            starts := s.log.starts + 1, faulty := {}, ended := multiset{}, tried := multiset{},
                            base := |s.log.receipts|)))
    case Load(name, readable, movable) =>
      if s.phase.Booting? && name in s.phase.todo && !name.Foreign?
      then Some(LoadName(s, name, readable, movable)) else None
    case Start =>
      if s.phase.Booting? && s.phase.todo == {}
      then Some(s.(phase := Up, mem := BLANK.(entries := s.mem.entries, pending := |s.mem.entries|, pc := Head),
                   log := s.log.(loaded := s.mem.entries, restored := |s.mem.entries|, peak := 0)))
      else None
  }

  // ----- runs -----

  datatype Action = OfHandler(c: Conn, ha: HandlerAct) | OfWorker(wa: WorkerAct) | OfProcess(pa: ProcessAct)

  ghost function Step(s: Sys, a: Action): Option<Sys> {
    match a
    case OfHandler(c, ha) => HandlerStep(s, c, ha)
    case OfWorker(wa) => WorkerStep(s, wa)
    case OfProcess(pa) => ProcessStep(s, pa)
  }

  /** The state after `actions`, or `None` if one of them was not possible. */
  ghost function Run(s: Sys, actions: seq<Action>): Option<Sys>
    decreases |actions|
  {
    if actions == [] then Some(s)
    else
      var s1 := Step(s, actions[0]);
      if s1.None? then None else Run(s1.value, actions[1..])
  }

  /** Nothing on disk, nothing running, nothing ever accepted. */
  ghost predicate Initial(s: Sys) {
    && s.disk == EMPTY && s.phase == Down && s.mem == BLANK
    && s.log == Log(map[], map[], map[], {}, {}, {}, {}, {}, {}, [], [], map[], {}, multiset{}, true,
                    multiset{}, 0, 0, true, {}, multiset{}, multiset{}, map[], 0, 0, 0)
  }

  ghost predicate Reachable(s: Sys) {
    exists s0: Sys, actions: seq<Action> :: Initial(s0) && Run(s0, actions) == Some(s)
  }

  lemma {:induction false} RunAppend(s: Sys, front: seq<Action>, back: seq<Action>)
    ensures Run(s, front + back) == (var m := Run(s, front); if m.None? then None else Run(m.value, back))
    decreases |front|
  {
    if front == [] {
      assert front + back == back;
    } else {
      assert (front + back)[0] == front[0] && (front + back)[1..] == front[1..] + back;
      var s1 := Step(s, front[0]);
      if s1.Some? {
        RunAppend(s1.value, front[1..], back);
      }
    }
  }

  lemma ReachableRun(s: Sys, actions: seq<Action>)
    requires Reachable(s) && Run(s, actions).Some?
    ensures Reachable(Run(s, actions).value)
  {
    var s0, before :| Initial(s0) && Run(s0, before) == Some(s);
    RunAppend(s0, before, actions);
  }
}
