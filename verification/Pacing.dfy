/**
  The rate limit. It is checked once before an attempt, so it separates attempts; the
  calls inside one attempt follow each other at once.
*/
module Pacing {
  import opened Messages
  import opened Scheduling
  import opened QueueStore
  import opened TelegramClient
  import opened WorkerLoop

  // ----- the calls of a run -----

  ghost function Picked(v: View, t: Turn): Option<QueueEntry> {
    Next(AfterAcceptAll(Seen(v, t), t.waiting).entries, t.pickNow)
  }

  /** The pass reaches `send_message`. */
  ghost predicate Sends(v: View, t: Turn) {
    HasDue(v.entries, t.headNow) && Picked(v, t).Some? && t.resolution.Some?
  }

  function StartOf(config: Config, v: View, t: Turn): nat {
    StartMs(config, AfterAcceptAll(Seen(v, t), t.waiting), t)
  }

  ghost function CallsIn(config: Config, v: View, t: Turn): seq<Call> {
    if Sends(v, t) then CallsOf(Picked(v, t).value, t.resolution.value, StartOf(config, v, t), t) else []
  }

  ghost function CallsInAll(config: Config, v: View, turns: seq<Turn>): seq<Call>
    decreases |turns|
  {
    if turns == [] then []
    else
      CallsIn(config, v, turns[0])
      + if Stops(v, turns[0]) then [] else CallsInAll(config, AfterTurn(config, v, turns[0]), turns[1..])
  }

  /** The instants at which attempts start talking to Telegram. */
  ghost function Starts(config: Config, v: View, turns: seq<Turn>): seq<nat>
    decreases |turns|
  {
    if turns == [] || Stops(v, turns[0]) then []
    else
      (if Sends(v, turns[0]) then [StartOf(config, v, turns[0])] else [])
      + Starts(config, AfterTurn(config, v, turns[0]), turns[1..])
  }

  lemma {:induction false} AcceptingKeeps(v: View, arrivals: seq<QueueEntry>)
    ensures AfterAcceptAll(v, arrivals).lastSend == v.lastSend && AfterAcceptAll(v, arrivals).calls == v.calls
    decreases |arrivals|
  {
    if arrivals == [] {
    } else {
      AcceptingKeeps(AfterAccept(v, arrivals[0]), arrivals[1..]);
    }
  }

  lemma TurnCalls(config: Config, v: View, t: Turn)
    ensures AfterTurn(config, v, t).calls == v.calls + CallsIn(config, v, t)
    ensures var start := StartOf(config, v, t);
            if Sends(v, t) then
              && AfterTurn(config, v, t).lastSend == Some(start)
              && (v.lastSend.Some? && config.minSendIntervalMs > 0 ==>
                    start >= v.lastSend.value + config.minSendIntervalMs)
            else AfterTurn(config, v, t).lastSend == v.lastSend
  {
    AcceptingKeeps(Seen(v, t), t.waiting);
  }

  /** The calls a run adds to the record are those of its passes. */
  lemma {:induction false} CallsFollow(config: Config, v: View, turns: seq<Turn>)
    ensures AfterTurns(config, v, turns).calls == v.calls + CallsInAll(config, v, turns)
    decreases |turns|
  {
    if turns == [] {
    } else {
      var v' := AfterTurn(config, v, turns[0]);
      TurnCalls(config, v, turns[0]);
      if Stops(v, turns[0]) {
      } else {
        CallsFollow(config, v', turns[1..]);
        Regroup(v.calls, CallsIn(config, v, turns[0]), CallsInAll(config, v', turns[1..]));
      }
    }
  }

  lemma Regroup<T>(a: seq<T>, b: seq<T>, c: seq<T>)
    ensures a + b + c == a + (b + c)
  {
  }

  // ----- spacing -----

  /** Instants at least `interval` apart, the first one also from `last`. */
  predicate Spaced(s: seq<nat>, interval: nat, last: Option<nat>) {
    && (forall i :: 0 < i < |s| ==> s[i] >= s[i - 1] + interval)
    && (last.Some? && s != [] ==> s[0] >= last.value + interval)
  }

  lemma SpacedCons(x: nat, s: seq<nat>, interval: nat, last: Option<nat>)
    requires last.Some? ==> x >= last.value + interval
    ensures Spaced([x] + s, interval, last) <==> Spaced(s, interval, Some(x))
  {
    var r := [x] + s;
    if Spaced(r, interval, last) {
      assert s != [] ==> r[1] == s[0] && r[1] >= r[1 - 1] + interval;
      forall i | 0 < i < |s| ensures s[i] >= s[i - 1] + interval {
        assert r[i + 1] >= r[i] + interval && r[i + 1] == s[i] && r[i] == s[i - 1];
      }
    }
  }

  /** Attempts start at least the configured interval apart. */
  lemma {:induction false} AttemptsAreSpaced(config: Config, v: View, turns: seq<Turn>)
    requires config.minSendIntervalMs > 0
    ensures Spaced(Starts(config, v, turns), config.minSendIntervalMs, v.lastSend)
    decreases |turns|
  {
    if turns == [] || Stops(v, turns[0]) {
    } else {
      var v' := AfterTurn(config, v, turns[0]);
      TurnCalls(config, v, turns[0]);
      AttemptsAreSpaced(config, v', turns[1..]);
      if Sends(v, turns[0]) {
        SpacedCons(v'.lastSend.value, Starts(config, v', turns[1..]), config.minSendIntervalMs, v.lastSend);
      } else {
        assert [] + Starts(config, v', turns[1..]) == Starts(config, v', turns[1..]);
      }
    }
  }

  function Instants(calls: seq<Call>): seq<nat> {
    seq(|calls|, i requires 0 <= i < |calls| => calls[i].at)
  }

  // ----- when calls are spaced -----

  /** The attempt of this pass makes one call: its body fits the limit, or its first chunk is rejected. */
  ghost predicate Single(v: View, t: Turn) {
    Sends(v, t) ==>
      || |Escaping.BodyOf(Picked(v, t).value.message, t.resolution.value)| <= MAX_MESSAGE_CHARS
      || t.api(0).Rejected?
  }

  ghost predicate AllSingle(config: Config, v: View, turns: seq<Turn>)
    decreases |turns|
  {
    turns == [] || (Single(v, turns[0])
                    && (Stops(v, turns[0]) || AllSingle(config, AfterTurn(config, v, turns[0]), turns[1..])))
  }

  lemma SingleMeansOneCall(config: Config, v: View, t: Turn)
    requires Sends(v, t)
    ensures var calls := CallsIn(config, v, t);
            && |calls| >= 1 && calls[0].at == StartOf(config, v, t)
            && (|calls| == 1 <==> Single(v, t))
            && (|calls| > 1 ==> calls[1].at == StartOf(config, v, t) + t.callMs(1))
  {
    var e, target := Picked(v, t).value, t.resolution.value;
    var body, at := Escaping.BodyOf(e.message, target), CallTimes(StartOf(config, v, t), t);
    OneCallExactly(target, body, FormatFor(e, target), SilentFor(e, target), t.api, at);
    CallsArePrefix(target, body, FormatFor(e, target), SilentFor(e, target), t.api, at);
  }

  /** One attempt's calls, then those of the passes after it. */
  lemma JoinSpaced(here: seq<Call>, rest: seq<Call>, start: nat, interval: nat, last: Option<nat>)
    requires here != [] && here[0].at == start && (last.Some? ==> start >= last.value + interval)
    ensures |here| == 1 ==> (Spaced(Instants(here + rest), interval, last)
                             <==> Spaced(Instants(rest), interval, Some(start)))
    ensures |here| > 1 && here[1].at < start + interval ==> !Spaced(Instants(here + rest), interval, last)
  {
    var all := Instants(here + rest);
    if |here| == 1 {
      assert all == [start] + Instants(rest);
      SpacedCons(start, Instants(rest), interval, last);
    } else {
      assert all[1 - 1] == start && all[1] == here[1].at;
    }
  }

  /** Where every attempt makes one call, all calls are spaced. */
  lemma {:induction false} SingleCallsAreSpaced(config: Config, v: View, turns: seq<Turn>)
    requires config.minSendIntervalMs > 0 && AllSingle(config, v, turns)
    ensures Spaced(Instants(CallsInAll(config, v, turns)), config.minSendIntervalMs, v.lastSend)
    decreases |turns|
  {
    if turns == [] || Stops(v, turns[0]) {
    } else {
      var v' := AfterTurn(config, v, turns[0]);
      var rest := CallsInAll(config, v', turns[1..]);
      TurnCalls(config, v, turns[0]);
      SingleCallsAreSpaced(config, v', turns[1..]);
      JoinTurn(config, v, turns[0], rest);
    }
  }

  lemma JoinTurn(config: Config, v: View, t: Turn, rest: seq<Call>)
    requires config.minSendIntervalMs > 0
    ensures var calls, interval := CallsIn(config, v, t), config.minSendIntervalMs;
            var later := Spaced(Instants(rest), interval, AfterTurn(config, v, t).lastSend);
            && (Single(v, t) ==> (Spaced(Instants(calls + rest), interval, v.lastSend) <==> later))
            && (!Single(v, t) && t.callMs(1) < interval ==> !Spaced(Instants(calls + rest), interval, v.lastSend))
  {
    TurnCalls(config, v, t);
    if Sends(v, t) {
      SingleMeansOneCall(config, v, t);
      JoinSpaced(CallsIn(config, v, t), rest, StartOf(config, v, t), config.minSendIntervalMs, v.lastSend);
    } else {
      assert [] + rest == rest;
    }
  }

  /** A second chunk is sent within the interval: nothing in the chunk loop waits. */
  ghost predicate Prompt(interval: nat, turns: seq<Turn>) {
    forall i :: 0 <= i < |turns| ==> turns[i].callMs(1) < interval
  }

  /** With prompt second calls, all calls of a run are spaced exactly when every attempt makes only one. */
  lemma {:induction false} PromptCallsAreSpacedExactly(config: Config, v: View, turns: seq<Turn>)
    requires config.minSendIntervalMs > 0 && Prompt(config.minSendIntervalMs, turns)
    ensures Spaced(Instants(CallsInAll(config, v, turns)), config.minSendIntervalMs, v.lastSend)
            <==> AllSingle(config, v, turns)
    decreases |turns|
  {
    if turns == [] || Stops(v, turns[0]) {
    } else {
      var v' := AfterTurn(config, v, turns[0]);
      PromptCallsAreSpacedExactly(config, v', turns[1..]);
      JoinTurn(config, v, turns[0], CallsInAll(config, v', turns[1..]));
    }
  }

  // ----- ... whatever the latency -----

  /** The same run with other times between the calls of an attempt. */
  function Paced(turns: seq<Turn>, callMs: nat -> nat): (r: seq<Turn>)
    ensures |r| == |turns| && forall i :: 0 <= i < |turns| ==> r[i] == turns[i].(callMs := callMs)
  {
    seq(|turns|, i requires 0 <= i < |turns| => turns[i].(callMs := callMs))
  }

  ghost predicate SameButCalls(v: View, w: View) {
    w == v.(calls := w.calls)
  }

  lemma {:induction false} AcceptingAlike(v: View, w: View, arrivals: seq<QueueEntry>)
    requires SameButCalls(v, w)
    ensures SameButCalls(AfterAcceptAll(v, arrivals), AfterAcceptAll(w, arrivals))
    decreases |arrivals|
  {
    if arrivals == [] {
    } else {
      AcceptingAlike(AfterAccept(v, arrivals[0]), AfterAccept(w, arrivals[0]), arrivals[1..]);
    }
  }

  lemma AttemptAlike(config: Config, v: View, w: View, e: QueueEntry, startMs: nat, t: Turn, u: Turn)
    requires SameButCalls(v, w) && u == t.(callMs := u.callMs)
    ensures SameButCalls(AfterAttempt(config, v, e, startMs, t), AfterAttempt(config, w, e, startMs, u))
  {
  }

  lemma AttemptNextAlike(config: Config, v: View, w: View, startMs: nat, t: Turn, u: Turn)
    requires SameButCalls(v, w) && u == t.(callMs := u.callMs)
    ensures SameButCalls(AfterAttemptNext(config, v, startMs, t), AfterAttemptNext(config, w, startMs, u))
  {
    var picked := Next(v.entries, t.pickNow);
    if picked.Some? {
      AttemptAlike(config, v, w, picked.value, startMs, t, u);
      assert AfterAttemptNext(config, v, startMs, t) == AfterAttempt(config, v, picked.value, startMs, t);
      assert AfterAttemptNext(config, w, startMs, u) == AfterAttempt(config, w, picked.value, startMs, u);
    }
  }

  /** The times between calls show in the record of calls and nowhere else. */
  lemma TurnAlike(config: Config, v: View, w: View, t: Turn, u: Turn)
    requires SameButCalls(v, w) && u == t.(callMs := u.callMs)
    ensures SameButCalls(AfterTurn(config, v, t), AfterTurn(config, w, u))
    ensures (Single(v, t) <==> Single(w, u)) && (Stops(v, t) <==> Stops(w, u))
  {
    var v1, w1 := AfterAcceptAll(Seen(v, t), t.waiting), AfterAcceptAll(Seen(w, u), u.waiting);
    AcceptingAlike(Seen(v, t), Seen(w, u), t.waiting);
    assert SameButCalls(v1, w1);
    assert Picked(v, t) == Picked(w, u);
    if HasDue(v.entries, t.headNow) {
      assert StartMs(config, v1, t) == StartMs(config, w1, u);
      AttemptNextAlike(config, v1, w1, StartMs(config, v1, t), t, u);
    }
  }

  lemma {:induction false} SingleAlike(config: Config, v: View, w: View, turns: seq<Turn>, callMs: nat -> nat)
    requires SameButCalls(v, w)
    ensures AllSingle(config, v, turns) <==> AllSingle(config, w, Paced(turns, callMs))
    decreases |turns|
  {
    if turns == [] {
    } else {
      var paced := Paced(turns, callMs);
      TurnAlike(config, v, w, turns[0], paced[0]);
      assert paced[1..] == Paced(turns[1..], callMs);
      SingleAlike(config, AfterTurn(config, v, turns[0]), AfterTurn(config, w, paced[0]), turns[1..], callMs);
    }
  }

  ghost predicate CallsSpaced(config: Config, v: View, turns: seq<Turn>) {
    Spaced(Instants(CallsInAll(config, v, turns)), config.minSendIntervalMs, v.lastSend)
  }

  /**
    What the rate limit is worth: it keeps all calls of a run apart, however fast
    Telegram answers, exactly when every attempt in the run makes only one call: each
    body fits the limit or is rejected at its first chunk.
  */
  lemma CallsAreSpacedExactly(config: Config, v: View, turns: seq<Turn>)
    requires config.minSendIntervalMs > 0
    ensures (forall callMs: nat -> nat :: CallsSpaced(config, v, Paced(turns, callMs))) <==> AllSingle(config, v, turns)
  {
    if AllSingle(config, v, turns) {
      forall callMs: nat -> nat ensures CallsSpaced(config, v, Paced(turns, callMs)) {
        SingleAlike(config, v, v, turns, callMs);
        SingleCallsAreSpaced(config, v, Paced(turns, callMs));
      }
    } else {
      var atOnce: nat -> nat := _ => 0;
      SingleAlike(config, v, v, turns, atOnce);
      PromptCallsAreSpacedExactly(config, v, Paced(turns, atOnce));
      assert !CallsSpaced(config, v, Paced(turns, atOnce));
    }
  }

  function LongText(n: nat): (s: string)
    ensures |s| == n
  {
    if n == 0 then "" else ['x'] + LongText(n - 1)
  }

  function LongMessage(id: Id): QueueEntry {
    QueueEntry(id, 0, 0, 0, None, Normal,
               QueuedMessage("t", LongText(MAX_MESSAGE_CHARS + 1), None, Some(Plain), None, None))
  }

  /** Whatever the interval, two calls can be made at the same instant: the text is one character too long. */
  lemma CallsCloserThanTheInterval(interval: nat) returns (config: Config, v: View, t: Turn)
    requires interval > 0
    ensures config.minSendIntervalMs == interval && v.calls == []
    ensures var calls := AfterTurn(config, v, t).calls; |calls| >= 2 && calls[1].at == calls[0].at
  {
    var e, chat := LongMessage("a"), Target("t", Plain, false, None);
    config := Config(RetryConfig(10, 5, 900, 2.0), 0, interval);
    v := View(map[e.id := e], EMPTY, 1, 0, [], None);
    t := Turn(0, [], d => d, 0, 0, 0, Some(chat), "", _ => Accepted, _ => 0, 0, StoreOk, FailOk, false, Slept);
    assert v.entries[e.id].IsDue(0) && HasDue(v.entries, 0);
    NextExists(v.entries, 0);
    assert Sends(v, t) && Picked(v, t) == Some(e);
    assert Escaping.RenderBody(None, e.message.text, Plain) == e.message.text;
    SingleMeansOneCall(config, v, t);
    TurnCalls(config, v, t);
  }
}
