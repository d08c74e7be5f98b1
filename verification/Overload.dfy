/**
  The bound on what the daemon holds is reached: for every size limit and every number of
  connections there is a run that makes it hold the limit, a full channel and one message
  more per connection. The size check reads a count that leaves out the channel and the
  entry the worker is just accepting.
*/
module Overload {
  import opened Messages
  import opened Scheduling
  import opened System
  import opened SystemCounts
  import opened SystemTheorems
  import opened Witnesses

  /** The id of the `n`-th message: `n` letters. */
  function Name(n: nat): (id: Id)
    ensures |id| == n
  {
    if n == 0 then "" else ['a'] + Name(n - 1)
  }

  function Nth(n: nat): QueueEntry {
    SmallMessage(Name(n))
  }

  ghost predicate Crowded(handlers: map<Conn, Handler>, conns: nat, sending: nat) {
    && |handlers| == conns && |Senders(handlers)| == sending
    && (forall c: Conn :: c < conns ==> c in handlers)
    && (forall c: Conn :: c < sending <= conns ==> handlers[c].Sending?)
    && (forall c: Conn :: sending <= c < conns ==> handlers[c] == Idle)
  }

  /** All of `conns` connections are open and the first `sending` of them past the check; `n` messages were made. */
  ghost predicate Stage(s: Sys, limit: nat, conns: nat, sending: nat, n: nat) {
    && Reachable(s) && s.phase.Up? && s.clock == 0 && s.disk.temps == map[]
    && s.config.maxQueueSize == limit && s.log.restored == 0 && s.log.peak == conns
    && Crowded(s.mem.handlers, conns, sending)
    && (forall id :: id in s.log.orig ==> |id| < n)
  }

  // ----- opening the connections -----

  lemma OpenNext(s: Sys, limit: nat, conns: nat) returns (s': Sys)
    requires Stage(s, limit, conns, 0, 0) && (forall c :: c in s.mem.handlers ==> c < conns)
    ensures Stage(s', limit, conns + 1, 0, 0) && (forall c :: c in s'.mem.handlers ==> c < conns + 1)
    ensures s'.mem == s.mem.(handlers := s'.mem.handlers)
  {
    s' := Open(s, conns);
    SendersUpdate(s.mem.handlers, conns, Idle);
    SizeAfterUpdate(s.mem.handlers, conns, Idle);
  }

  lemma {:induction false} OpenAll(limit: nat, conns: nat) returns (s: Sys)
    ensures Stage(s, limit, conns, 0, 0) && (forall c :: c in s.mem.handlers ==> c < conns)
    ensures s.mem == BLANK.(handlers := s.mem.handlers, pc := Head)
  {
    if conns == 0 {
      s := Started(limit);
      assert Senders(map[]) == {};
    } else {
      var s0 := OpenAll(limit, conns - 1);
      s := OpenNext(s0, limit, conns - 1);
    }
  }

  // ----- messages into the channel -----

  lemma FillOne(s: Sys, limit: nat, conns: nat, n: nat) returns (s': Sys)
    requires Stage(s, limit, conns, 0, n) && conns > 0 && s.mem.pending < limit
    requires |s.mem.channel| < CHANNEL_CAPACITY && s.mem.pc != Stopped
    ensures Stage(s', limit, conns, 0, n + 1) && s'.mem == s.mem.(channel := s.mem.channel + [Nth(n)])
  {
    s' := Accept(s, 0, Nth(n));
  }

  lemma {:induction false} FillChannel(s: Sys, limit: nat, conns: nat, n: nat) returns (s': Sys, m: nat)
    requires Stage(s, limit, conns, 0, n) && conns > 0 && s.mem.pending < limit
    requires |s.mem.channel| <= CHANNEL_CAPACITY && s.mem.pc != Stopped
    ensures Stage(s', limit, conns, 0, m) && |s'.mem.channel| == CHANNEL_CAPACITY
    ensures s'.mem == s.mem.(channel := s'.mem.channel)
    decreases CHANNEL_CAPACITY - |s.mem.channel|
  {
    if |s.mem.channel| == CHANNEL_CAPACITY {
      s', m := s, n;
    } else {
      var s1 := FillOne(s, limit, conns, n);
      s', m := FillChannel(s1, limit, conns, n + 1);
    }
  }

  // ----- entries into the worker -----

  lemma FrontIsNew(s: Sys)
    requires Reachable(s) && s.mem.channel != []
    ensures s.mem.channel[0].id !in s.mem.entries
  {
    ReachableInv(s);
  }

  /** The worker can receive; the count it published is right. */
  ghost predicate Receiving(m: Mem, held: nat) {
    m.pc == (if held == 0 then Waiting else Draining) && m.pending == |m.entries| == held
  }

  lemma TakeFront(s: Sys, held: nat) returns (s': Sys)
    requires Reachable(s) && s.phase.Up? && Receiving(s.mem, held) && s.mem.channel != []
    ensures Reachable(s') && s' == Insert(s, held > 0) && |s'.mem.entries| == held + 1
  {
    FrontIsNew(s);
    s' := Reach(s, OfWorker(if held == 0 then TakeArrival else Go(true)));
    SizeAfterUpdate(s.mem.entries, s.mem.channel[0].id, s.mem.channel[0]);
  }

  /** One more entry is held. */
  lemma HoldOne(s: Sys, limit: nat, conns: nat, n: nat, held: nat) returns (s': Sys)
    requires Stage(s, limit, conns, 0, n) && conns > 0 && Receiving(s.mem, held) && s.mem.channel == [] && held < limit
    ensures Stage(s', limit, conns, 0, n + 1) && Receiving(s'.mem, held + 1) && s'.mem.channel == []
  {
    var s1 := FillOne(s, limit, conns, n);
    var s2 := TakeFront(s1, held);
    assert s1.mem.channel[1..] == [];
    s' := Announce(s2, Nth(n), held);
  }

  /** The count is published and the worker is ready to receive again. */
  lemma Announce(s: Sys, e: QueueEntry, held: nat) returns (s': Sys)
    requires Reachable(s) && s.phase.Up? && s.mem.pc == Inserted(e.id, held > 0) && |s.mem.entries| == held + 1
    requires e.id in s.mem.entries && s.mem.entries[e.id] == e && e.IsDue(s.clock)
    ensures Reachable(s') && Receiving(s'.mem, held + 1)
    ensures s' == s.(mem := s.mem.(pending := s'.mem.pending, pc := s'.mem.pc))
  {
    s' := Reach(s, OfWorker(Go(true)));
    if held == 0 {
      assert HasDue(s'.mem.entries, s'.clock);
      s' := Reach(s', OfWorker(Go(true)));
    }
  }

  lemma {:induction false} Hold(limit: nat, conns: nat, held: nat) returns (s: Sys)
    requires conns > 0 && held <= limit
    ensures Stage(s, limit, conns, 0, held) && Receiving(s.mem, held) && s.mem.channel == []
    decreases held
  {
    if held == 0 {
      s := OpenAll(limit, conns);
      s := Reach(s, OfWorker(Go(true)));
    } else {
      var s0 := Hold(limit, conns, held - 1);
      s := HoldOne(s0, limit, conns, held - 1, held - 1);
    }
  }

  // ----- connections past the check -----

  /** Connection `c` sends a request that passes the check. */
  lemma Pass(s: Sys, c: Conn, n: nat) returns (s': Sys)
    requires Reachable(s) && s.phase.Up? && s.clock == 0 && c in s.mem.handlers && s.mem.handlers[c] == Idle
    requires s.disk.temps == map[] && s.mem.pending < s.config.maxQueueSize
    requires forall id :: id in s.log.orig ==> |id| < n
    ensures Reachable(s') && s'.mem == s.mem.(handlers := s.mem.handlers[c := Sending(Nth(n))])
    ensures s'.phase == s.phase && s'.clock == 0 && s'.disk.temps == map[] && s'.config == s.config
    ensures s'.log == Created(s.log, Nth(n))
  {
    var s1 := Store(s, c, Nth(n));
    s' := Check(s1, c, Nth(n));
    assert s.mem.handlers[c := Checking(Nth(n))][c := Sending(Nth(n))] == s.mem.handlers[c := Sending(Nth(n))];
  }

  lemma CrowdOne(s: Sys, limit: nat, conns: nat, sending: nat, n: nat) returns (s': Sys)
    requires Stage(s, limit, conns, sending, n) && sending < conns && s.mem.pending < limit
    ensures Stage(s', limit, conns, sending + 1, n + 1) && s'.mem == s.mem.(handlers := s'.mem.handlers)
  {
    s' := Pass(s, sending, n);
    SendersUpdate(s.mem.handlers, sending, Sending(Nth(n)));
    SizeAfterUpdate(s.mem.handlers, sending, Sending(Nth(n)));
  }

  lemma {:induction false} Crowd(s: Sys, limit: nat, conns: nat, sending: nat, n: nat) returns (s': Sys, m: nat)
    requires Stage(s, limit, conns, sending, n) && sending <= conns && s.mem.pending < limit
    ensures Stage(s', limit, conns, conns, m) && s'.mem == s.mem.(handlers := s'.mem.handlers)
    decreases conns - sending
  {
    if sending == conns {
      s', m := s, n;
    } else {
      var s1 := CrowdOne(s, limit, conns, sending, n);
      s', m := Crowd(s1, limit, conns, sending + 1, n + 1);
    }
  }

  /** The worker is accepting, its count not yet published: one more message gets past the check. */
  lemma OneMore(s: Sys, limit: nat, conns: nat, n: nat) returns (s': Sys)
    requires Stage(s, limit, conns, conns, n) && conns > 0 && s.mem.pc.Inserted? && s.mem.pending < limit
    requires |s.mem.channel| == CHANNEL_CAPACITY - 1
    ensures Stage(s', limit, conns, conns, n + 1)
    ensures |s'.mem.channel| == CHANNEL_CAPACITY && s'.mem.entries == s.mem.entries
  {
    var e := s.mem.handlers[0].e;
    var s1 := Send(s, 0, e);
    s' := Pass(s1, 0, n);
    SendersUpdate(s.mem.handlers, 0, Sending(Nth(n)));
    SizeAfterUpdate(s.mem.handlers, 0, Sending(Nth(n)));
    assert s.mem.handlers[0 := Idle][0 := Sending(Nth(n))] == s.mem.handlers[0 := Sending(Nth(n))];
  }

  /** The bound of `RealQueueBound` is reached for every limit and every number of connections. */
  lemma BoundIsReached(limit: nat, conns: nat) returns (s: Sys)
    requires limit > 0 && conns > 0
    ensures Reachable(s) && s.phase.Up? && s.config.maxQueueSize == limit && s.log.restored == 0 && s.log.peak == conns
    ensures QueueLoad(s.mem) == limit + 1024 + conns
  {
    var held := Hold(limit, conns, limit - 1);
    var full, n := FillChannel(held, limit, conns, limit - 1);
    var crowd, m := Crowd(full, limit, conns, 0, n);
    var taken := TakeFront(crowd, limit - 1);
    s := OneMore(taken, limit, conns, m);
  }
}
