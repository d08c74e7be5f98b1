/**
  What a stopped worker leaves behind: unless a file operation on it failed, a file in the
  queue directory is that of a held entry, of a request still being answered, or of a
  message dropped with the channel, which has had no outcome.
*/
module SystemStopped {
  import opened Messages
  import opened System
  import opened SystemShape
  import opened SystemEffects
  import opened SystemCoupling
  import opened SystemUntried

  ghost predicate Explained(m: Mem, log: Log, id: Id) {
    id in m.entries || OwnedStored(m.handlers, id) || NoOutcome(log, id)
  }

  ghost predicate StoppedOk(s: Sys) {
    s.phase.Up? && s.mem.pc == Stopped ==>
      forall id :: id in s.disk.queue && id !in s.log.faulty ==> Explained(s.mem, s.log, id)
  }

  /** The worker stops: what is in the channel is dropped. */
  lemma StopExplains(s: Sys)
    requires Coupled(s) && UntriedOk(s) && s.phase.Up? && s.mem.pc == Waiting
    ensures StoppedOk(s.(mem := s.mem.(channel := [], pc := Stopped)))
  {
    forall id | id in s.disk.queue && id !in s.log.faulty
      ensures Explained(s.mem.(channel := [], pc := Stopped), s.log, id)
    {
      assert Answered(s.mem, id);
      if InChannel(s.mem.channel, id) {
        assert Early(s.mem, id);
      }
    }
  }

  /** A handler goes from `h` to `h'`; a file it no longer answers for is gone or at fault. */
  lemma MoveExplains(s: Sys, s': Sys, c: Conn, h': Handler)
    requires StoppedOk(s) && s.phase.Up? && s'.phase == s.phase && s.mem.pc == Stopped && c in s.mem.handlers
    requires s'.mem == s.mem.(handlers := s.mem.handlers[c := h'])
    requires SameOutcomes(s.log, s'.log) && s.log.faulty <= s'.log.faulty
    requires forall id :: id in s'.disk.queue ==> id in s.disk.queue || (Stored(h') && h'.e.id == id)
    requires var h := s.mem.handlers[c];
             Stored(h) ==> h.e.id in s'.log.faulty || h.e.id !in s'.disk.queue || (Stored(h') && h'.e.id == h.e.id)
    ensures StoppedOk(s')
  {
    forall id | id in s'.disk.queue && id !in s'.log.faulty ensures Explained(s'.mem, s'.log, id) {
      if Stored(h') && h'.e.id == id {
        assert OwnedStored(s'.mem.handlers, id) by {
          assert Stored(s'.mem.handlers[c]) && s'.mem.handlers[c].e.id == id;
        }
      } else {
        assert Explained(s.mem, s.log, id);
        if OwnedStored(s.mem.handlers, id) {
          var d :| d in s.mem.handlers && Stored(s.mem.handlers[d]) && s.mem.handlers[d].e.id == id;
          assert d != c && s'.mem.handlers[d] == s.mem.handlers[d];
        }
      }
    }
  }

  lemma ProceedExplains(s: Sys, c: Conn, ok: bool)
    requires StoppedOk(s) && s.mem.pc == Stopped && HandlerStep(s, c, Proceed(ok)).Some?
    ensures StoppedOk(HandlerStep(s, c, Proceed(ok)).value)
  {
    var s' := HandlerStep(s, c, Proceed(ok)).value;
    ProceedEffect(s, c, ok);
    ProceedStores(s, c, ok);
    MoveExplains(s, s', c, s'.mem.handlers[c]);
  }

  /** Only a rename adds a file, and only a removal lets go of one. */
  lemma ProceedStores(s: Sys, c: Conn, ok: bool)
    requires s.mem.pc == Stopped && HandlerStep(s, c, Proceed(ok)).Some?
    ensures var s', h := HandlerStep(s, c, Proceed(ok)).value, s.mem.handlers[c];
            var h' := s'.mem.handlers[c];
            && s.log.faulty <= s'.log.faulty
            && (s'.disk.queue.Keys <= s.disk.queue.Keys
                || (Stored(h') && s'.disk.queue.Keys == s.disk.queue.Keys + {h'.e.id}))
            && (Stored(h) ==> h.e.id in s'.log.faulty || h.e.id !in s'.disk.queue || (Stored(h') && h'.e == h.e))
  {
    match s.mem.handlers[c] {
      case Opening(e) =>
      case Writing(e) =>
      case Renaming(e) =>
      case Checking(e) =>
      case Sending(e) =>
      case Removing(e) =>
      case Acking(id) =>
      case Refusing(id) =>
    }
  }

  lemma HandlerExplains(s: Sys, c: Conn, a: HandlerAct)
    requires Shape(s) && StoppedOk(s) && UntriedOk(s) && HandlerStep(s, c, a).Some?
    ensures StoppedOk(HandlerStep(s, c, a).value)
  {
    if s.mem.pc == Stopped {
      if a.Proceed? {
        ProceedExplains(s, c, a.ok);
      } else {
        var s' := HandlerStep(s, c, a).value;
        StoredKept(s.mem.handlers, s'.mem.handlers, c);
        assert forall id :: id in s.disk.queue && id !in s.log.faulty ==> Explained(s.mem, s.log, id);
      }
    } else if a.Proceed? {
      ProceedEffect(s, c, a.ok);
    }
  }

  lemma WorkerExplains(s: Sys, a: WorkerAct)
    requires Coupled(s) && UntriedOk(s) && s.phase.Up? && WorkerStep(s, a).Some?
    ensures StoppedOk(WorkerStep(s, a).value)
  {
    if s.mem.pc.Waiting? && a.Stop? {
      StopExplains(s);
    } else {
      StaysUp(s, a);
    }
  }

  lemma StaysUp(s: Sys, a: WorkerAct)
    requires WorkerStep(s, a).Some? && !(s.mem.pc.Waiting? && a.Stop?)
    ensures WorkerStep(s, a).value.mem.pc != Stopped
  {
    if Burying(s.mem.pc) {
      BuryEffect(s, a.ok);
    } else if Retrying(s.mem.pc) {
      RetryEffect(s, a.ok);
    } else if Speaking(s.mem.pc) {
      if a.Answer? {
      } else {
        TalkEffect(s, a);
      }
    } else {
      TakeEffect(s, a);
    }
  }

  lemma StepStopped(s: Sys, a: Action)
    requires Shape(s) && Coupled(s) && UntriedOk(s) && StoppedOk(s) && Step(s, a).Some?
    ensures StoppedOk(Step(s, a).value)
  {
    match a {
      case OfHandler(c, ha) => HandlerExplains(s, c, ha);
      case OfWorker(wa) => WorkerExplains(s, wa);
      case OfProcess(pa) =>
        if pa.Tick? {
          assert forall id :: Explained(s.mem, s.log, id) ==> Explained(Step(s, a).value.mem, Step(s, a).value.log, id);
        }
    }
  }
}
