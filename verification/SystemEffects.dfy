/**
  What each group of worker and process steps leaves alone, without quantifiers, so that
  the invariants about the log need not look inside the steps.
*/
module SystemEffects {
  import opened Messages
  import opened QueueStore
  import opened Scheduling
  import opened RetryPolicy
  import opened System
  import opened SystemShape

  /** The part of the log that only handlers, and a worker talking to Telegram, ever add to. */
  predicate SameHistory(log: Log, log': Log) {
    && log'.requests == log.requests && log'.orig == log.orig && log'.born == log.born
    && log'.sent == log.sent && log'.acked == log.acked && log'.refused == log.refused && log'.undone == log.undone
    && log'.wire == log.wire && log'.receipts == log.receipts && log'.starts == log.starts
    && log'.tried == log.tried && log'.everTried == log.everTried && log'.loaded == log.loaded
    && log'.limit == log.limit && log'.limited == log.limited
  }

  /** ... and the part about delays and the clock. */
  predicate SameTiming(log: Log, log': Log) {
    log'.delays == log.delays && log'.steady == log.steady && log'.unsaved == log.unsaved
    && log'.lost == log.lost
  }

  predicate Inserts(s: Sys, a: WorkerAct) {
    s.mem.channel != [] && (s.mem.pc.Draining? || (s.mem.pc.Waiting? && a.TakeArrival?))
  }

  /** Publishing a count or moving between waiting places. */
  predicate PcMove(s: Sys, s': Sys) {
    s' == s.(mem := s.mem.(pc := s'.mem.pc, pending := s'.mem.pending))
  }

  lemma TakeEffect(s: Sys, a: WorkerAct)
    requires WorkerTake(s, a).Some?
    ensures var s' := WorkerTake(s, a).value;
            if Inserts(s, a) then s' == Insert(s, s.mem.pc.Draining?)
            else if s.mem.pc.Waiting? && a.Stop? then s' == s.(mem := s.mem.(channel := [], pc := Stopped))
            else PcMove(s, s') && !Burying(s'.mem.pc) && !Retrying(s'.mem.pc) && !s'.mem.pc.Talking?
  {
  }

  /** The worker's steps around a conversation. */
  predicate AroundTalk(s: Sys, s': Sys) {
    && s'.phase == s.phase && s'.config == s.config && s'.clock == s.clock
    && SameHistory(s.log.(tried := s'.log.tried, everTried := s'.log.everTried), s'.log) && SameTiming(s.log, s'.log)
    && (s'.mem.pc.Talking? || (s'.log.tried == s.log.tried && s'.log.everTried == s.log.everTried))
    && s'.mem.handlers == s.mem.handlers && s'.mem.channel == s.mem.channel
    && (s'.disk == s.disk || (s.mem.pc.Unlinking? && s'.disk == Unlink(s.disk, s.mem.pc.id)))
    && (s'.mem.entries == s.mem.entries || (s.mem.pc.Talking? && s'.mem.entries == s.mem.entries - {s.mem.pc.e.id}))
    && !Retrying(s'.mem.pc)
  }

  lemma PickEffect(s: Sys, a: WorkerAct)
    requires s.mem.pc == Picking && WorkerTalk(s, a).Some?
    ensures var s' := WorkerTalk(s, a).value;
            && AroundTalk(s, s')
            && (s'.mem.pc.Talking? ==> s'.mem.pc.k == 0 && IsNextDue(s.mem.entries, s.clock, s'.mem.pc.e))
  {
    match a {
      case Pick(_, resolution, _) =>
        if resolution.Some? {
        } else {
        }
      case Go(_) =>
    }
  }

  /** The worker forgets a delivered entry. */
  lemma ForgetEffect(s: Sys, a: WorkerAct)
    requires !s.mem.pc.Picking? && WorkerTalk(s, a).Some? && !a.Answer?
    ensures var s' := WorkerTalk(s, a).value;
            && AroundTalk(s, s')
            && (if s.mem.pc.Talking? then
                  && s'.mem.entries == s.mem.entries - {s.mem.pc.e.id} && s'.mem.pc == Unlinking(s.mem.pc.e.id)
                else s'.mem.entries == s.mem.entries && (s'.mem.pc.Counting? || s'.mem.pc == Forgotten))
            && s'.log.ended == s.log.ended && s'.log.givenUp == s.log.givenUp && s'.log.skipped == s.log.skipped
  {
    match s.mem.pc {
      case Talking(e, target, k) =>
      case Unlinking(id) =>
        if a.ok {
        } else {
        }
      case Counting(id) =>
    }
  }

  lemma TalkEffect(s: Sys, a: WorkerAct)
    requires WorkerTalk(s, a).Some? && !a.Answer?
    ensures var s' := WorkerTalk(s, a).value;
            && AroundTalk(s, s')
            && (s'.mem.pc.Talking? ==> s'.mem.pc.k == 0 && IsNextDue(s.mem.entries, s.clock, s'.mem.pc.e))
  {
    if s.mem.pc.Picking? {
      PickEffect(s, a);
    } else {
      ForgetEffect(s, a);
    }
  }

  /** An answer of Telegram reaches a talking worker. */
  lemma AnswerEffect(s: Sys, a: WorkerAct)
    requires WorkerTalk(s, a).Some? && a.Answer?
    ensures s.mem.pc.Talking? && s.mem.pc.k < |ChunksOf(s.mem.pc.e, s.mem.pc.target)|
    ensures var pc := s.mem.pc;
            WorkerTalk(s, a).value == if a.reply.Accepted? then ChunkAccepted(s, pc.e, pc.target, pc.k)
                                      else ChunkRejected(s, pc.e, pc.target, pc.k, a.reply.error)
  {
    match s.mem.pc {
      case Talking(e, target, k) =>
    }
  }

  /** A rejected chunk changes nothing but the record, and where the worker stands. */
  lemma RejectEffect(s: Sys, e: QueueEntry, target: Target, k: nat, error: SendError)
    requires k < |ChunksOf(e, target)|
    ensures var s', log := ChunkRejected(s, e, target, k, error), s.log;
            && s' == s.(mem := s.mem.(pc := s'.mem.pc), log := s'.log)
            && s'.log == log.(wire := log.wire + [ApiCall(e.id, ChunksOf(e, target)[k], false)],
                              givenUp := s'.log.givenUp, ended := s'.log.ended,
                              delays := s'.log.delays, steady := s'.log.steady)
            && (match Decide(s.config.retry, e, error, s.clock)
                case GiveUp(dead) =>
                  && s'.mem.pc == DeadOpening(dead) && s'.log.delays == log.delays && s'.log.steady == log.steady
                  && s'.log.givenUp == log.givenUp + {e.id} && s'.log.ended == log.ended + multiset{e.id}
                case Retry(next, delay) =>
                  && s'.mem.pc == RetryOpening(next) && s'.log.givenUp == log.givenUp && s'.log.ended == log.ended
                  && (next.id in log.delays ==>
                        s'.log.delays == log.delays[next.id := log.delays[next.id] + delay])
                  && (s'.log.steady <==> log.steady && s.clock + delay < U64_LIMIT))
  {
  }

  /** An accepted chunk changes nothing but the record, and how many are accepted. */
  lemma AcceptEffect(s: Sys, e: QueueEntry, target: Target, k: nat)
    requires k < |ChunksOf(e, target)|
    ensures var s', log := ChunkAccepted(s, e, target, k), s.log;
            && s' == s.(mem := s.mem.(pc := Talking(e, target, k + 1)), log := s'.log)
            && s'.log == log.(wire := log.wire + [ApiCall(e.id, ChunksOf(e, target)[k], true)],
                              receipts := s'.log.receipts, ended := s'.log.ended)
            && (if k + 1 < |ChunksOf(e, target)| then s'.log.receipts == log.receipts && s'.log.ended == log.ended
                else s'.log.receipts == log.receipts + [Receipt(e, target, |s'.log.wire|)]
                     && s'.log.ended == log.ended + multiset{e.id})
  {
  }

  lemma BuryEffect(s: Sys, ok: bool)
    requires WorkerBury(s, ok).Some?
    ensures var s' := WorkerBury(s, ok).value;
            && s'.phase == s.phase && s'.config == s.config && s'.clock == s.clock
            && SameHistory(s.log, s'.log) && SameTiming(s.log, s'.log)
            && s'.mem.handlers == s.mem.handlers && s'.mem.channel == s.mem.channel
            && (s'.disk.queue == s.disk.queue || s'.disk.queue == s.disk.queue - {s.mem.pc.e.id})
            && (if s.mem.pc.Dropping? then s'.mem.entries == s.mem.entries - {s.mem.pc.e.id} && s'.mem.pc == Forgotten
                else s'.mem.entries == s.mem.entries && Burying(s'.mem.pc) && s'.mem.pc.e == s.mem.pc.e)
            && s'.log.ended == s.log.ended && s'.log.givenUp == s.log.givenUp && s'.log.skipped == s.log.skipped
  {
    match s.mem.pc {
      case DeadOpening(e) =>
      case DeadWriting(e) =>
      case DeadUnlinking(e) =>
      case Dropping(e) =>
    }
  }

  lemma RetryEffect(s: Sys, ok: bool)
    requires WorkerRetry(s, ok).Some?
    ensures var s', e := WorkerRetry(s, ok).value, s.mem.pc.e;
            && s'.phase == s.phase && s'.config == s.config && s'.clock == s.clock
            && SameHistory(s.log, s'.log) && s'.log.delays == s.log.delays && s'.log.steady == s.log.steady
            && s'.mem.handlers == s.mem.handlers && s'.mem.channel == s.mem.channel
            && (s'.disk.queue == s.disk.queue || Saved(s, s', e))
            && (if s.mem.pc.Reinserting? then
                  && s'.mem.entries == s.mem.entries[e.id := e] && s'.mem.pc == Head
                  && s'.log.unsaved == s.log.unsaved
                else s'.mem.entries == s.mem.entries && Retrying(s'.mem.pc) && s'.mem.pc.e == e)
            && (if !s'.mem.pc.Reinserting? then s'.log.unsaved == s.log.unsaved && s'.log.lost == s.log.lost
                else Saved(s, s', e) || NotSaved(s, s', e))
            && s'.log.ended == s.log.ended && s'.log.givenUp == s.log.givenUp && s'.log.skipped == s.log.skipped
            && s.log.faulty <= s'.log.faulty
  {
    match s.mem.pc {
      case RetryOpening(e) =>
      case RetryWriting(e) =>
      case RetryRenaming(e) =>
      case Reinserting(e) =>
    }
  }

  /** The new retry state has just replaced the queue file. */
  predicate Saved(s: Sys, s': Sys, e: QueueEntry) {
    && s.mem.pc == RetryRenaming(e) && e.id in s.disk.temps
    && s'.disk.queue == s.disk.queue[e.id := s.disk.temps[e.id]]
    && s'.log.unsaved == s.log.unsaved && s'.log.lost == s.log.lost
  }

  /** The new retry state has not reached the disk. */
  predicate NotSaved(s: Sys, s': Sys, e: QueueEntry) {
    && s'.disk.queue == s.disk.queue
    && s'.log.unsaved == s.log.unsaved + {e.id} && s'.log.lost == s.log.lost + multiset{e.id}
  }

  /** A file operation fails in this step. */
  predicate Faulty(a: Action) {
    match a
    case OfHandler(_, Proceed(ok)) => !ok
    case OfWorker(Go(ok)) => !ok
    case OfProcess(Load(_, readable, movable)) => !readable || !movable
    case _ => false
  }

  /** No failure is recorded, and no loss that comes from one. */
  predicate Clean(log: Log, log': Log) {
    && log'.faulty <= log.faulty && log'.undone == log.undone && log'.unsaved == log.unsaved
    && log'.lost == log.lost && log'.skipped == log.skipped
  }

  /** Nothing counts as failed, left behind, unsaved or unreadable without such a failure, or a crash. */
  lemma FaultsAreReal(s: Sys, a: Action)
    requires Step(s, a).Some? && !Faulty(a) && a != OfProcess(Crash)
    ensures Clean(s.log, Step(s, a).value.log)
  {
    match a {
      case OfHandler(c, ha) => HandlerIsClean(s, c, ha);
      case OfWorker(wa) => WorkerIsClean(s, wa);
      case OfProcess(pa) => ProcessIsClean(s, pa);
    }
  }

  lemma HandlerIsClean(s: Sys, c: Conn, a: HandlerAct)
    requires HandlerStep(s, c, a).Some? && (a.Proceed? ==> a.ok)
    ensures Clean(s.log, HandlerStep(s, c, a).value.log)
  {
    match a {
      case Proceed(ok) => ProceedIsClean(s, c, s.mem.handlers[c]);
      case Connect =>
      case Disconnect =>
      case Receive(_, _) =>
    }
  }

  lemma ProceedIsClean(s: Sys, c: Conn, h: Handler)
    ensures HandlerStore(s, c, h, true).Some? ==> HandlerStore(s, c, h, true).value.log == s.log
    ensures HandlerSubmit(s, c, h, true).Some? ==>
              var log := HandlerSubmit(s, c, h, true).value.log;
              log == s.log.(sent := log.sent, acked := log.acked, refused := log.refused)
  {
  }

  lemma ProcessIsClean(s: Sys, a: ProcessAct)
    requires ProcessStep(s, a).Some? && !a.Crash? && (a.Load? ==> a.readable && a.movable)
    ensures Clean(s.log, ProcessStep(s, a).value.log)
  {
  }

  lemma WorkerIsClean(s: Sys, a: WorkerAct)
    requires WorkerStep(s, a).Some? && (a.Go? ==> a.ok)
    ensures Clean(s.log, WorkerStep(s, a).value.log)
  {
    if Speaking(s.mem.pc) {
      if a.Answer? {
        AnswerIsClean(s, a);
      } else {
        TalkIsClean(s, a);
      }
    }
  }

  lemma TalkIsClean(s: Sys, a: WorkerAct)
    requires WorkerTalk(s, a).Some? && !a.Answer? && (a.Go? ==> a.ok)
    ensures Clean(s.log, WorkerTalk(s, a).value.log)
  {
    match s.mem.pc {
      case Picking =>
        match a {
          case Pick(_, resolution, _) =>
          case Go(_) =>
        }
      case Talking(_, _, _) =>
      case Unlinking(_) =>
      case Counting(_) =>
    }
  }

  lemma AnswerIsClean(s: Sys, a: WorkerAct)
    requires WorkerTalk(s, a).Some? && a.Answer?
    ensures Clean(s.log, WorkerTalk(s, a).value.log)
  {
    AnswerEffect(s, a);
    if a.reply.Accepted? {
      AcceptEffect(s, s.mem.pc.e, s.mem.pc.target, s.mem.pc.k);
    } else {
      RejectEffect(s, s.mem.pc.e, s.mem.pc.target, s.mem.pc.k, a.reply.error);
    }
  }

  /** The numbers that the bounds are stated in. */
  predicate SameBounds(log: Log, log': Log) {
    log'.limit == log.limit && log'.starts == log.starts && log'.peak == log.peak && log'.restored == log.restored
  }

  /**
    ... are what they are called: the limit is that of some start, starts are counted one
    by one, the peak is no more than were open at once, and what was restored was loaded.
  */
  lemma BoundsAreReal(s: Sys, a: Action)
    requires Step(s, a).Some?
    ensures var s', log := Step(s, a).value, s.log;
            match a
            case OfProcess(Boot(config)) =>
              SameBounds(log.(limit := if config.retry.maxAttempts < log.limit then log.limit
                                       else config.retry.maxAttempts,
                              starts := log.starts + 1), s'.log)
            case OfProcess(Start) => SameBounds(log.(restored := |s.mem.entries|, peak := 0), s'.log)
            case OfHandler(_, Connect) =>
              SameBounds(log.(peak := s'.log.peak), s'.log)
              && (s'.log.peak == log.peak || s'.log.peak == |s'.mem.handlers|)
            case _ => SameBounds(log, s'.log)
  {
    match a {
      case OfProcess(pa) =>
      case OfHandler(c, ha) => HandlerBounds(s, c, ha);
      case OfWorker(wa) => WorkerBounds(s, wa);
    }
  }

  lemma HandlerBounds(s: Sys, c: Conn, a: HandlerAct)
    requires HandlerStep(s, c, a).Some?
    ensures var s' := HandlerStep(s, c, a).value;
            && SameBounds(s.log.(peak := s'.log.peak), s'.log)
            && (s'.log.peak == s.log.peak || (a.Connect? && s'.log.peak == |s'.mem.handlers|))
  {
    match a {
      case Proceed(ok) => ProceedEffect(s, c, ok);
      case Connect =>
      case Disconnect =>
      case Receive(_, _) =>
    }
  }

  lemma WorkerBounds(s: Sys, a: WorkerAct)
    requires WorkerStep(s, a).Some?
    ensures SameBounds(s.log, WorkerStep(s, a).value.log)
  {
    if Burying(s.mem.pc) {
      BuryBounds(s, a.ok);
    } else if Retrying(s.mem.pc) {
      RetryBounds(s, a.ok);
    } else if !Speaking(s.mem.pc) {
      TakeEffect(s, a);
    } else if a.Answer? {
      AnswerBounds(s, a);
    } else {
      TalkBounds(s, a);
    }
  }

  lemma BuryBounds(s: Sys, ok: bool)
    requires WorkerBury(s, ok).Some?
    ensures SameBounds(s.log, WorkerBury(s, ok).value.log)
  {
    match s.mem.pc {
      case DeadOpening(_) =>
      case DeadWriting(_) =>
      case DeadUnlinking(_) =>
      case Dropping(_) =>
    }
  }

  lemma RetryBounds(s: Sys, ok: bool)
    requires WorkerRetry(s, ok).Some?
    ensures SameBounds(s.log, WorkerRetry(s, ok).value.log)
  {
    match s.mem.pc {
      case RetryOpening(_) =>
      case RetryWriting(_) =>
      case RetryRenaming(_) =>
      case Reinserting(_) =>
    }
  }

  lemma TalkBounds(s: Sys, a: WorkerAct)
    requires WorkerTalk(s, a).Some? && !a.Answer?
    ensures SameBounds(s.log, WorkerTalk(s, a).value.log)
  {
    match s.mem.pc {
      case Picking =>
        match a {
          case Pick(_, resolution, _) =>
          case Go(_) =>
        }
      case Talking(_, _, _) =>
      case Unlinking(_) =>
      case Counting(_) =>
    }
  }

  lemma AnswerBounds(s: Sys, a: WorkerAct)
    requires WorkerTalk(s, a).Some? && a.Answer?
    ensures SameBounds(s.log, WorkerTalk(s, a).value.log)
  {
    AnswerEffect(s, a);
    if a.reply.Accepted? {
      AcceptEffect(s, s.mem.pc.e, s.mem.pc.target, s.mem.pc.k);
    } else {
      RejectEffect(s, s.mem.pc.e, s.mem.pc.target, s.mem.pc.k, a.reply.error);
    }
  }

  /**
    The worker gives up on a message in three cases only: its target cannot be resolved,
    Telegram answered that trying again is pointless, or its attempts are used up.
  */
  lemma GivenUpForAReason(s: Sys, a: WorkerAct, id: Id)
    requires WorkerStep(s, a).Some? && id in WorkerStep(s, a).value.log.givenUp && id !in s.log.givenUp
    ensures s.mem.pc.Picking? || s.mem.pc.Talking?
    ensures s.mem.pc.Picking? ==> a.Pick? && a.resolution.None? && a.entry.id == id
    ensures s.mem.pc.Talking? ==>
              && s.mem.pc.e.id == id && a.Answer? && a.reply.Rejected?
              && (a.reply.error.Permanent? || LimitReached(s.config.retry, s.mem.pc.e))
  {
    if Burying(s.mem.pc) {
      BuryEffect(s, a.ok);
    } else if Retrying(s.mem.pc) {
      RetryEffect(s, a.ok);
    } else if !Speaking(s.mem.pc) {
      TakeEffect(s, a);
    } else if a.Answer? {
      AnswerGivesUp(s, a, id);
    } else {
      TalkGivesUp(s, a, id);
    }
  }

  lemma TalkGivesUp(s: Sys, a: WorkerAct, id: Id)
    requires WorkerTalk(s, a).Some? && !a.Answer? && id in WorkerTalk(s, a).value.log.givenUp && id !in s.log.givenUp
    ensures s.mem.pc.Picking? && a.Pick? && a.resolution.None? && a.entry.id == id
  {
    if s.mem.pc.Picking? {
      match a {
        case Pick(_, resolution, _) =>
        case Go(_) =>
      }
    } else {
      ForgetEffect(s, a);
    }
  }

  lemma AnswerGivesUp(s: Sys, a: WorkerAct, id: Id)
    requires WorkerTalk(s, a).Some? && a.Answer? && id in WorkerTalk(s, a).value.log.givenUp && id !in s.log.givenUp
    ensures s.mem.pc.Talking? && s.mem.pc.e.id == id && a.reply.Rejected?
    ensures a.reply.error.Permanent? || LimitReached(s.config.retry, s.mem.pc.e)
  {
    AnswerEffect(s, a);
    var e, target, k := s.mem.pc.e, s.mem.pc.target, s.mem.pc.k;
    if a.reply.Accepted? {
      AcceptEffect(s, e, target, k);
    } else {
      RejectEffect(s, e, target, k, a.reply.error);
      DecideByError(s.config.retry, e, a.reply.error, s.clock);
    }
  }

  /** What a handler's step leaves to everyone else. */
  lemma ProceedEffect(s: Sys, c: Conn, ok: bool)
    requires HandlerStep(s, c, Proceed(ok)).Some?
    ensures var s', h := HandlerStep(s, c, Proceed(ok)).value, s.mem.handlers[c];
            && c in s.mem.handlers && c in s'.mem.handlers
            && s'.mem == s.mem.(handlers := s.mem.handlers[c := s'.mem.handlers[c]], channel := s'.mem.channel)
            && s'.mem.channel == (if h.Sending? && s.mem.pc != Stopped then s.mem.channel + [h.e] else s.mem.channel)
            && s'.clock == s.clock && s'.phase == s.phase && s'.config == s.config
            && s'.log == s.log.(sent := s'.log.sent, acked := s'.log.acked, refused := s'.log.refused,
                                undone := s'.log.undone, faulty := s'.log.faulty)
            && (Owns(s'.mem.handlers[c]) ==> Owns(h) && h.e == s'.mem.handlers[c].e)
            && (s'.disk.queue == s.disk.queue
                || (h.Renaming? && h.e.id in s.disk.temps
                    && s'.disk.queue == s.disk.queue[h.e.id := s.disk.temps[h.e.id]])
                || (h.Removing? && s'.disk.queue == s.disk.queue - {h.e.id}))
  {
    match s.mem.handlers[c] {
      case Opening(e) =>
      case Writing(e) =>
      case Renaming(e) =>
      case Checking(e) =>
      case Sending(e) =>
      case Removing(e) =>
      case Acking(id) =>
      case Refusing(id) =>
    }
  }

  /** Still with its connection or in the channel. */
  ghost predicate Coming(m: Mem, id: Id) {
    Owned(m.handlers, id) || InChannel(m.channel, id)
  }

  /** A handler's step touches neither the worker nor its record. */
  lemma HandlerEffect(s: Sys, c: Conn, a: HandlerAct)
    requires HandlerStep(s, c, a).Some?
    ensures var s' := HandlerStep(s, c, a).value;
            && s'.phase == s.phase && s'.config == s.config && s'.clock == s.clock
            && s'.mem == s.mem.(handlers := s'.mem.handlers, channel := s'.mem.channel)
            && s'.log == s.log.(requests := s'.log.requests, orig := s'.log.orig, born := s'.log.born,
                                sent := s'.log.sent, acked := s'.log.acked, refused := s'.log.refused,
                                undone := s'.log.undone, faulty := s'.log.faulty,
                                delays := s'.log.delays, peak := s'.log.peak)
            && (if a.Receive? then
                  && IsNew(s, a.e) && Carries(a.e, a.request) && s'.log.orig == s.log.orig[a.e.id := a.e]
                  && s'.log.requests == s.log.requests[a.e.id := a.request]
                  && s'.log.born == s.log.born[a.e.id := s.log.starts]
                else s'.log.orig == s.log.orig && s'.log.requests == s.log.requests && s'.log.born == s.log.born)
  {
    if a.Proceed? {
      ProceedEffect(s, c, a.ok);
    }
  }

  /** Nothing new is on its way to the worker, except what is just received. */
  lemma HandlerNewcomers(s: Sys, c: Conn, a: HandlerAct, id: Id)
    requires HandlerStep(s, c, a).Some? && Coming(HandlerStep(s, c, a).value.mem, id)
    ensures Coming(s.mem, id) || (a.Receive? && id == a.e.id)
  {
    var s' := HandlerStep(s, c, a).value;
    match a {
      case Receive(_, _) => OwnedBefore(s.mem.handlers, s'.mem.handlers, c, id);
      case Connect => OwnedBefore(s.mem.handlers, s'.mem.handlers, c, id);
      case Disconnect => OwnedBefore(s.mem.handlers, s'.mem.handlers, c, id);
      case Proceed(ok) =>
        ProceedEffect(s, c, ok);
        OwnedBefore(s.mem.handlers, s'.mem.handlers, c, id);
        if Owns(s.mem.handlers[c]) {
          PushMembers(s.mem.channel, s.mem.handlers[c].e, id);
          assert Owned(s.mem.handlers, s.mem.handlers[c].e.id);
        }
    }
  }

  /** Only the handler of `c` differs. */
  lemma OwnedBefore(handlers: map<Conn, Handler>, handlers': map<Conn, Handler>, c: Conn, id: Id)
    requires forall d :: d in handlers' && d != c ==> d in handlers && handlers[d] == handlers'[d]
    ensures Owned(handlers', id) ==>
              Owned(handlers, id) || (c in handlers' && Owns(handlers'[c]) && handlers'[c].e.id == id)
  {
  }

  lemma ProcessEffect(s: Sys, a: ProcessAct)
    requires ProcessStep(s, a).Some? && !a.Load?
    ensures var s' := ProcessStep(s, a).value;
            && s'.disk == s.disk
            && s'.log.requests == s.log.requests
            && s'.log.orig == s.log.orig && s'.log.born == s.log.born && s'.log.sent == s.log.sent
            && s'.log.refused == s.log.refused && s'.log.undone == s.log.undone
            && s'.log.wire == s.log.wire && s'.log.receipts == s.log.receipts && s'.log.delays == s.log.delays
            && (s'.mem == s.mem || s'.mem == BLANK
                || (s.phase.Booting? && s'.mem == BLANK.(entries := s.mem.entries, pending := |s.mem.entries|,
                                                         pc := Head)))
            && (if a.Tick? then s'.clock == a.now && s'.mem == s.mem else s'.clock == s.clock)
            && (s'.log.steady <==> s.log.steady && s.clock <= s'.clock)
            && s'.log.unsaved == s.log.unsaved + (if a.Crash? then LostRetry(s.mem.pc) else {})
            && s'.log.lost == s.log.lost && s'.log.everTried == s.log.everTried
            && s'.log.starts == s.log.starts + (if a.Boot? then 1 else 0)
  {
  }

  lemma LoadEffect(s: Sys, name: DirName, readable: bool, movable: bool)
    requires s.phase.Booting? && (name.Final? || name.Temp?)
    ensures var s' := LoadName(s, name, readable, movable);
            && SameHistory(s.log, s'.log) && SameTiming(s.log, s'.log)
            && s'.mem == s.mem.(entries := s'.mem.entries) && s'.clock == s.clock
            && (s'.disk.queue == s.disk.queue || s'.disk.queue == s.disk.queue - {name.id})
            && (s'.mem.entries == s.mem.entries
                || (name.Final? && name.id in s.disk.queue && s.disk.queue[name.id].Complete?
                    && s'.mem.entries == s.mem.entries[s.disk.queue[name.id].entry.id := s.disk.queue[name.id].entry]))
  {
  }
}
