/**
  What the worker does over many passes: the order in which a queue drains, how many
  attempts that takes, and how long a due entry can be overtaken.

  These results follow only the map of held entries; `EntriesFollow` ties them to the
  full behaviour of the worker in `WorkerLoop`.
*/
module Draining {
  import opened Messages
  import opened Scheduling
  import opened RetryPolicy
  import opened QueueStore
  import opened TelegramClient
  import opened WorkerLoop

  // ----- the held entries, pass by pass -----

  function Merged(m: map<Id, QueueEntry>, arrivals: seq<QueueEntry>): map<Id, QueueEntry>
    decreases |arrivals|
  {
    if arrivals == [] then m else Merged(m[arrivals[0].id := arrivals[0]], arrivals[1..])
  }

  /** What is left of an attempted entry: nothing, or its rescheduled form. */
  function Settled(config: Config, e: QueueEntry, t: Turn): Option<QueueEntry> {
    if t.resolution.None? then None
    else
      var error := AttemptError(Escaping.BodyOf(e.message, t.resolution.value), t.api);
      if error.None? then None
      else match Decide(config.retry, e, error.value, t.failNow)
           case GiveUp(_) => None
           case Retry(next, _) => Some(next)
  }

  /** The entry attempted in a pass, if any. */
  ghost function Attempted(m: map<Id, QueueEntry>, t: Turn): Option<QueueEntry> {
    if HasDue(m, t.headNow) then Next(Merged(m, t.waiting), t.pickNow) else None
  }

  function Settle(m: map<Id, QueueEntry>, id: Id, left: Option<QueueEntry>): map<Id, QueueEntry> {
    if left.None? then m - {id} else m[left.value.id := left.value]
  }

  ghost function EntriesAfter(config: Config, m: map<Id, QueueEntry>, t: Turn): map<Id, QueueEntry> {
    if HasDue(m, t.headNow) then
      var e := Attempted(m, t);
      var m1 := Merged(m, t.waiting);
      if e.None? then m1 else Settle(m1, e.value.id, Settled(config, e.value, t))
    else if t.wake.Received? then m[t.wake.entry.id := t.wake.entry]
    else m
  }

  ghost predicate Ends(m: map<Id, QueueEntry>, t: Turn) {
    !HasDue(m, t.headNow) && (t.wake.Shutdown? || t.wake.Closed?)
  }

  ghost function EntriesAfterAll(config: Config, m: map<Id, QueueEntry>, turns: seq<Turn>): map<Id, QueueEntry>
    decreases |turns|
  {
    if turns == [] || Ends(m, turns[0]) then m
    else EntriesAfterAll(config, EntriesAfter(config, m, turns[0]), turns[1..])
  }

  /** The entries attempted, in order. */
  ghost function Attempts(config: Config, m: map<Id, QueueEntry>, turns: seq<Turn>): seq<QueueEntry>
    decreases |turns|
  {
    if turns == [] || Ends(m, turns[0]) then []
    else
      var e := Attempted(m, turns[0]);
      (if e.Some? then [e.value] else []) + Attempts(config, EntriesAfter(config, m, turns[0]), turns[1..])
  }

  lemma {:induction false} MergedFollows(v: View, arrivals: seq<QueueEntry>)
    ensures AfterAcceptAll(v, arrivals).entries == Merged(v.entries, arrivals)
    decreases |arrivals|
  {
    if arrivals == [] {
    } else {
      MergedFollows(AfterAccept(v, arrivals[0]), arrivals[1..]);
    }
  }

  lemma EntriesFollowTurn(config: Config, v: View, t: Turn)
    ensures AfterTurn(config, v, t).entries == EntriesAfter(config, v.entries, t)
  {
    MergedFollows(Seen(v, t), t.waiting);
    var picked := Attempted(v.entries, t);
    if picked.Some? {
      EntriesFollowAttempt(config, AfterAcceptAll(Seen(v, t), t.waiting), picked.value, t);
    }
  }

  lemma EntriesFollowAttempt(config: Config, v: View, e: QueueEntry, t: Turn)
    ensures AfterAttempt(config, v, e, StartMs(config, v, t), t).entries
            == Settle(v.entries, e.id, Settled(config, e, t))
  {
    if t.resolution.Some? {
      var error := AttemptError(Escaping.BodyOf(e.message, t.resolution.value), t.api);
      if error.Some? {
        EntriesFollowFailure(config, Called(v, e, t.resolution.value, StartMs(config, v, t), t), e, error.value, t);
      }
    }
  }

  lemma EntriesFollowFailure(config: Config, v: View, e: QueueEntry, error: SendError, t: Turn)
    ensures AfterFailure(config, v, e, error, t).entries
         == Settle(v.entries, e.id, match Decide(config.retry, e, error, t.failNow)
                                    case GiveUp(_) => None
                                    case Retry(next, _) => Some(next))
  {
  }

  /** The held entries of the worker evolve as this module says. */
  lemma {:induction false} EntriesFollow(config: Config, v: View, turns: seq<Turn>)
    ensures AfterTurns(config, v, turns).entries == EntriesAfterAll(config, v.entries, turns)
    decreases |turns|
  {
    if turns == [] {
    } else {
      EntriesFollowTurn(config, v, turns[0]);
      EntriesFollow(config, AfterTurn(config, v, turns[0]), turns[1..]);
    }
  }

  lemma {:induction false} MergedKeyed(m: map<Id, QueueEntry>, arrivals: seq<QueueEntry>)
    requires Keyed(m)
    ensures Keyed(Merged(m, arrivals))
    decreases |arrivals|
  {
    if arrivals == [] {
    } else {
      MergedKeyed(m[arrivals[0].id := arrivals[0]], arrivals[1..]);
    }
  }

  lemma SettledKeepsId(config: Config, e: QueueEntry, t: Turn)
    ensures var left := Settled(config, e, t); left.Some? ==> left.value.SameMessage(e)
  {
  }

  // ----- draining sorts -----

  ghost predicate AllDue(m: map<Id, QueueEntry>, now: u64) {
    forall id :: id in m ==> m[id].IsDue(now)
  }

  /** The target resolves and Telegram accepts every chunk. */
  ghost predicate Succeeds(t: Turn) {
    t.resolution.Some? && forall k: nat :: t.api(k).Accepted?
  }

  /** No connection touches the directories. */
  ghost predicate Undisturbed(t: Turn) {
    forall d :: t.others(d) == d
  }

  ghost predicate SortedDrain(s: seq<QueueEntry>, m: map<Id, QueueEntry>) {
    && |s| == |m|
    && Enumerates(s, m)
    && Ascending(s)
  }

  ghost predicate Ascending(s: seq<QueueEntry>) {
    forall i, j :: 0 <= i < j < |s| ==> Before(s[i], s[j])
  }

  lemma ConsAscending(e: QueueEntry, s: seq<QueueEntry>)
    requires Ascending(s) && forall i :: 0 <= i < |s| ==> Before(e, s[i])
    ensures Ascending([e] + s)
  {
  }

  lemma ConsEnumerates(e: QueueEntry, s: seq<QueueEntry>, m: map<Id, QueueEntry>)
    requires e.id in m && m[e.id] == e && Enumerates(s, m - {e.id})
    ensures Enumerates([e] + s, m)
  {
    var r, rest := [e] + s, m - {e.id};
    forall i | 0 <= i < |r| ensures r[i].id in m && m[r[i].id] == r[i] {
      if i > 0 {
        assert r[i] == s[i - 1] && s[i - 1].id in rest;
      }
    }
    forall id | id in m ensures m[id] in r {
      if id != e.id {
        assert rest[id] in s;
      }
    }
  }

  lemma SortedCons(e: QueueEntry, s: seq<QueueEntry>, m: map<Id, QueueEntry>)
    requires e.id in m && m[e.id] == e
    requires SortedDrain(s, m - {e.id})
    requires forall id :: id in m && id != e.id ==> Before(e, m[id])
    ensures SortedDrain([e] + s, m)
  {
    ConsEnumerates(e, s, m);
    forall i | 0 <= i < |s| ensures Before(e, s[i]) {
      assert s[i].id in m - {e.id};
    }
    ConsAscending(e, s);
  }

  /**
    With everything due, every send accepted and nothing arriving, one pass per entry
    empties the map, and the delivered sequence is its contents sorted by priority
    (highest first), then age, then id.
  */
  lemma {:induction false} DrainIsSorted(config: Config, m: map<Id, QueueEntry>, turns: seq<Turn>)
    requires Keyed(m) && |turns| == |m|
    requires forall i :: 0 <= i < |turns| ==>
               && AllDue(m, turns[i].headNow) && AllDue(m, turns[i].pickNow)
               && turns[i].waiting == [] && Succeeds(turns[i])
    ensures SortedDrain(Attempts(config, m, turns), m)
    ensures var s := Attempts(config, m, turns); forall i, j :: 0 <= i < j < |s| ==> Precedes(s[i], s[j])
    ensures EntriesAfterAll(config, m, turns) == map[]
    decreases |turns|
  {
    if turns == [] {
    } else {
      var t := turns[0];
      var id :| id in m;
      assert m[id].IsDue(t.headNow) && HasDue(m, t.headNow);
      assert m[id].IsDue(t.pickNow) && HasDue(m, t.pickNow);
      NextExists(m, t.pickNow);
      var e := Attempted(m, t).value;
      var rest := m - {e.id};
      assert EntriesAfter(config, m, t) == rest;
      DrainIsSorted(config, rest, turns[1..]);
      SortedCons(e, Attempts(config, rest, turns[1..]), m);
    }
    SortedPrecedes(Attempts(config, m, turns), m);
  }

  lemma SortedPrecedes(s: seq<QueueEntry>, m: map<Id, QueueEntry>)
    requires SortedDrain(s, m)
    ensures forall i, j :: 0 <= i < j < |s| ==> Precedes(s[i], s[j])
  {
    forall i, j | 0 <= i < j < |s| ensures Precedes(s[i], s[j]) {
      BeforeIsTotal(s[i], s[j]);
      assert s[i].id in m && m[s[i].id] == s[i] && s[j].id in m && m[s[j].id] == s[j];
      BeforeMeans(s[i], s[j]);
    }
  }

  /** One pass of such a drain, on everything the worker can change. */
  lemma DrainTurn(config: Config, v: View, t: Turn)
    requires Keyed(v.entries) && v.entries != map[]
    requires AllDue(v.entries, t.headNow) && AllDue(v.entries, t.pickNow) && t.waiting == [] && Succeeds(t)
    requires !t.removeFails && Undisturbed(t)
    ensures Next(v.entries, t.pickNow).Some? && !Stops(v, t)
    ensures var e, v' := Next(v.entries, t.pickNow).value, AfterTurn(config, v, t);
            && e.id in v.entries
            && v'.entries == v.entries - {e.id} && v'.pending == |v'.entries| && v'.delivered == v.delivered + 1
            && v'.disk == Unlink(v.disk, e.id)
            && v'.calls == v.calls + CallsOf(e, t.resolution.value, StartMs(config, v, t), t)
  {
    var id :| id in v.entries;
    assert v.entries[id].IsDue(t.headNow) && HasDue(v.entries, t.headNow);
    assert v.entries[id].IsDue(t.pickNow) && HasDue(v.entries, t.pickNow);
    NextExists(v.entries, t.pickNow);
  }

  /** The whole drain: everything is delivered once, counted, and its file removed; other files stay. */
  lemma {:induction false} DrainDelivers(config: Config, v: View, turns: seq<Turn>)
    requires Keyed(v.entries) && |turns| == |v.entries| && v.pending == |v.entries|
    requires forall i :: 0 <= i < |turns| ==>
               && AllDue(v.entries, turns[i].headNow) && AllDue(v.entries, turns[i].pickNow)
               && turns[i].waiting == [] && Succeeds(turns[i]) && !turns[i].removeFails && Undisturbed(turns[i])
    ensures var v' := AfterTurns(config, v, turns);
            && v'.entries == map[] && v'.pending == 0 && v'.delivered == v.delivered + |v.entries|
            && v'.disk == v.disk.(queue := v.disk.queue - v.entries.Keys)
    decreases |turns|
  {
    if turns == [] {
      assert v.entries.Keys == {};
      assert v.disk.queue - {} == v.disk.queue;
    } else {
      DrainTurn(config, v, turns[0]);
      var e := Next(v.entries, turns[0].pickNow).value;
      var v1 := AfterTurn(config, v, turns[0]);
      DrainDelivers(config, v1, turns[1..]);
      RemoveOneThenRest(v.disk.queue, v.entries, e.id);
    }
  }

  lemma RemoveOneThenRest<V, W>(queue: map<Id, V>, entries: map<Id, W>, id: Id)
    requires id in entries
    ensures |entries - {id}| == |entries| - 1
    ensures queue - {id} - (entries - {id}).Keys == queue - entries.Keys
  {
    assert (entries - {id}).Keys == entries.Keys - {id};
  }

  // ----- budgets -----

  /** The share of `e` in a sum over the entries ranked before `x`, or over all of them. */
  function Share(retry: RetryConfig, x: Option<QueueEntry>, e: QueueEntry): nat {
    if x.None? || Before(e, x.value) then Budget(retry, e) else 0
  }

  ghost function Total(retry: RetryConfig, x: Option<QueueEntry>, m: map<Id, QueueEntry>): nat
    decreases |m|
  {
    if m == map[] then 0
    else
      var id :| id in m;
      Share(retry, x, m[id]) + Total(retry, x, m - {id})
  }

  lemma {:induction false} TotalRemove(retry: RetryConfig, x: Option<QueueEntry>, m: map<Id, QueueEntry>, id: Id)
    requires id in m
    ensures Total(retry, x, m) == Share(retry, x, m[id]) + Total(retry, x, m - {id})
    decreases |m|
  {
    var first :| first in m && Total(retry, x, m) == Share(retry, x, m[first]) + Total(retry, x, m - {first});
    if first != id {
      TotalRemove(retry, x, m - {first}, id);
      TotalRemove(retry, x, m - {id}, first);
      assert m - {first} - {id} == m - {id} - {first};
    }
  }

  lemma TotalInsert(retry: RetryConfig, x: Option<QueueEntry>, m: map<Id, QueueEntry>, id: Id, e: QueueEntry)
    ensures Total(retry, x, m[id := e]) == Total(retry, x, m - {id}) + Share(retry, x, e)
    ensures Total(retry, x, m[id := e]) <= Total(retry, x, m) + Share(retry, x, e)
  {
    TotalRemove(retry, x, m[id := e], id);
    assert m[id := e] - {id} == m - {id};
    if id in m {
      TotalRemove(retry, x, m, id);
    } else {
      assert m - {id} == m;
    }
  }

  lemma {:induction false} TotalCoversSize(retry: RetryConfig, m: map<Id, QueueEntry>)
    ensures |m| <= Total(retry, None, m)
    decreases |m|
  {
    if m == map[] {
    } else {
      var id :| id in m;
      TotalRemove(retry, None, m, id);
      TotalCoversSize(retry, m - {id});
    }
  }

  ghost function ShareOfArrivals(retry: RetryConfig, x: Option<QueueEntry>, arrivals: seq<QueueEntry>): nat {
    if arrivals == [] then 0 else Share(retry, x, arrivals[0]) + ShareOfArrivals(retry, x, arrivals[1..])
  }

  lemma {:induction false} TotalMerged(retry: RetryConfig, x: Option<QueueEntry>, m: map<Id, QueueEntry>,
                                       arrivals: seq<QueueEntry>)
    ensures Total(retry, x, Merged(m, arrivals)) <= Total(retry, x, m) + ShareOfArrivals(retry, x, arrivals)
    decreases |arrivals|
  {
    if arrivals == [] {
    } else {
      TotalInsert(retry, x, m, arrivals[0].id, arrivals[0]);
      TotalMerged(retry, x, m[arrivals[0].id := arrivals[0]], arrivals[1..]);
    }
  }

  /** No attempt counter is about to wrap around. */
  ghost predicate Unwrapped(m: map<Id, QueueEntry>) {
    forall id :: id in m ==> m[id].attempts < U32_LIMIT - 1
  }

  ghost predicate UnwrappedArrivals(arrivals: seq<QueueEntry>) {
    forall i :: 0 <= i < |arrivals| ==> arrivals[i].attempts < U32_LIMIT - 1
  }

  lemma {:induction false} MergedUnwrapped(m: map<Id, QueueEntry>, arrivals: seq<QueueEntry>)
    requires Unwrapped(m) && UnwrappedArrivals(arrivals)
    ensures Unwrapped(Merged(m, arrivals))
    decreases |arrivals|
  {
    if arrivals == [] {
    } else {
      MergedUnwrapped(m[arrivals[0].id := arrivals[0]], arrivals[1..]);
    }
  }

  /** An attempt takes one unit off every sum its entry has a share in, whatever its outcome. */
  lemma AttemptSpends(config: Config, x: Option<QueueEntry>, m: map<Id, QueueEntry>, e: QueueEntry, t: Turn)
    requires config.retry.maxAttempts > 0 && Unwrapped(m) && Keyed(m)
    requires e.id in m && m[e.id] == e
    ensures var m' := Settle(m, e.id, Settled(config, e, t));
            && Unwrapped(m') && Keyed(m')
            && (if x.None? || Before(e, x.value)
                then Total(config.retry, x, m') + 1 <= Total(config.retry, x, m)
                else Total(config.retry, x, m') == Total(config.retry, x, m))
  {
    TotalRemove(config.retry, x, m, e.id);
    var left := Settled(config, e, t);
    if left.Some? {
      SettledSpends(config, x, e, t);
      TotalInsert(config.retry, x, m, e.id, left.value);
    }
  }

  lemma SettledSpends(config: Config, x: Option<QueueEntry>, e: QueueEntry, t: Turn)
    requires config.retry.maxAttempts > 0 && e.attempts < U32_LIMIT - 1
    requires Settled(config, e, t).Some?
    ensures var next := Settled(config, e, t).value;
            && next.id == e.id && next.attempts < U32_LIMIT - 1
            && Share(config.retry, x, next) == (if x.None? || Before(e, x.value) then Share(config.retry, x, e) - 1
                                                else 0)
  {
    var error := AttemptError(Escaping.BodyOf(e.message, t.resolution.value), t.api).value;
    FailureSpendsBudget(config.retry, e, error, t.failNow);
  }

  // ----- draining terminates -----

  /** Nothing arrives and the worker is not told to stop. */
  ghost predicate Quiet(t: Turn) {
    t.waiting == [] && t.wake.Slept?
  }

  ghost predicate AllQuiet(turns: seq<Turn>) {
    forall i :: 0 <= i < |turns| ==> Quiet(turns[i])
  }

  lemma QuietTurn(config: Config, m: map<Id, QueueEntry>, t: Turn)
    requires config.retry.maxAttempts > 0 && Unwrapped(m) && Keyed(m) && Quiet(t)
    ensures var m' := EntriesAfter(config, m, t);
            && Unwrapped(m') && Keyed(m')
            && (Attempted(m, t).Some? ==> Total(config.retry, None, m') + 1 <= Total(config.retry, None, m))
            && (Attempted(m, t).None? ==> m' == m)
  {
    assert Merged(m, t.waiting) == m;
    var e := Attempted(m, t);
    if e.Some? {
      AttemptSpends(config, None, m, e.value, t);
    }
  }

  /** The attempts of a quiet run never exceed the budget, whatever errors occur. */
  lemma {:induction false} DrainSpendsBudget(config: Config, m: map<Id, QueueEntry>, turns: seq<Turn>)
    requires config.retry.maxAttempts > 0 && Unwrapped(m) && Keyed(m) && AllQuiet(turns)
    ensures |Attempts(config, m, turns)| + Total(config.retry, None, EntriesAfterAll(config, m, turns))
         <= Total(config.retry, None, m)
    ensures |Attempts(config, m, turns)| == Total(config.retry, None, m) ==> EntriesAfterAll(config, m, turns) == map[]
    decreases |turns|
  {
    if turns == [] {
    } else {
      QuietTurn(config, m, turns[0]);
      DrainSpendsBudget(config, EntriesAfter(config, m, turns[0]), turns[1..]);
    }
    TotalCoversSize(config.retry, EntriesAfterAll(config, m, turns));
  }

  /** The computed sleep as a function of the held entries. */
  ghost predicate IsSleep(m: map<Id, QueueEntry>, now: u64, s: nat) {
    exists vals :: Enumerates(vals, m) && SecondsUntilNext(vals, now) == Some(s)
  }

  /**
    The clock over a run: each pass picks no earlier than it looked, and the pass after
    a sleep starts no earlier than the sleep ends.
  */
  ghost predicate ClockRuns(config: Config, m: map<Id, QueueEntry>, turns: seq<Turn>)
    decreases |turns|
  {
    turns != [] ==>
      var t := turns[0];
      && t.pickNow >= t.headNow
      && ClockRuns(config, EntriesAfter(config, m, t), turns[1..])
      && (!HasDue(m, t.headNow) && |turns| > 1 ==>
            forall s :: IsSleep(m, t.headNow, s) ==> turns[1].headNow >= t.headNow + s)
  }

  lemma DueStaysDue(m: map<Id, QueueEntry>, now: u64, later: u64)
    requires HasDue(m, now) && now <= later
    ensures HasDue(m, later)
  {
  }

  lemma BusyTurnAttempts(m: map<Id, QueueEntry>, t: Turn)
    requires Keyed(m) && Quiet(t) && t.pickNow >= t.headNow && HasDue(m, t.headNow)
    ensures Attempted(m, t).Some?
  {
    DueStaysDue(m, t.headNow, t.pickNow);
    NextExists(m, t.pickNow);
  }

  lemma DueAfterSleep(m: map<Id, QueueEntry>, t: Turn, next: Turn)
    requires Keyed(m) && m != map[] && !HasDue(m, t.headNow)
    requires forall s :: IsSleep(m, t.headNow, s) ==> next.headNow >= t.headNow + s
    ensures HasDue(m, next.headNow)
  {
    var vals := HasEnumeration(m);
    SleepIsExact(vals, m, t.headNow);
    var s := SecondsUntilNext(vals, t.headNow).value;
    assert IsSleep(m, t.headNow, s);
    DueStaysDue(m, t.headNow + s, next.headNow);
  }

  lemma {:induction false} EmptyStaysEmpty(config: Config, turns: seq<Turn>)
    requires AllQuiet(turns)
    ensures EntriesAfterAll(config, map[], turns) == map[]
    decreases |turns|
  {
    if turns == [] {
    } else {
      EmptyStaysEmpty(config, turns[1..]);
    }
  }

  /**
    A quiet run empties the queue: at most one idle pass goes before each attempt, so
    twice the budget is enough passes.
  */
  lemma {:induction false} DrainEnds(config: Config, m: map<Id, QueueEntry>, turns: seq<Turn>)
    requires config.retry.maxAttempts > 0 && Unwrapped(m) && Keyed(m)
    requires AllQuiet(turns) && ClockRuns(config, m, turns)
    requires |turns| >= 2 * Total(config.retry, None, m)
          || (turns != [] && HasDue(m, turns[0].headNow) && |turns| >= 2 * Total(config.retry, None, m) - 1)
    ensures EntriesAfterAll(config, m, turns) == map[]
    decreases |turns|
  {
    if m == map[] {
      EmptyStaysEmpty(config, turns);
    } else {
      TotalCoversSize(config.retry, m);
      var t, rest := turns[0], turns[1..];
      QuietTurn(config, m, t);
      if HasDue(m, t.headNow) {
        BusyTurnAttempts(m, t);
      } else {
        assert |turns| > 1 && rest[0] == turns[1];
        DueAfterSleep(m, t, rest[0]);
      }
      DrainEnds(config, EntriesAfter(config, m, t), rest);
    }
  }

  // ----- bounded overtaking -----

  /** `x` is due at every reading, no arrival takes its id, and it is never the one attempted. */
  ghost predicate Waits(config: Config, m: map<Id, QueueEntry>, turns: seq<Turn>, x: QueueEntry)
    decreases |turns|
  {
    turns != [] ==>
      var t := turns[0];
      && x.IsDue(t.headNow) && x.IsDue(t.pickNow)
      && (forall i :: 0 <= i < |t.waiting| ==> t.waiting[i].id != x.id)
      && UnwrappedArrivals(t.waiting)
      && Attempted(m, t) != Some(x)
      && Waits(config, EntriesAfter(config, m, t), turns[1..], x)
  }

  ghost function ShareOfAllArrivals(retry: RetryConfig, x: QueueEntry, turns: seq<Turn>): nat {
    if turns == [] then 0
    else ShareOfArrivals(retry, Some(x), turns[0].waiting) + ShareOfAllArrivals(retry, x, turns[1..])
  }

  lemma {:induction false} MergedKeeps(m: map<Id, QueueEntry>, arrivals: seq<QueueEntry>, id: Id)
    requires id in m && forall i :: 0 <= i < |arrivals| ==> arrivals[i].id != id
    ensures id in Merged(m, arrivals) && Merged(m, arrivals)[id] == m[id]
    decreases |arrivals|
  {
    if arrivals == [] {
    } else {
      MergedKeeps(m[arrivals[0].id := arrivals[0]], arrivals[1..], id);
    }
  }

  /** One pass in which the due entry `x` is passed over. */
  lemma OvertakingTurn(config: Config, m: map<Id, QueueEntry>, t: Turn, x: QueueEntry)
    requires config.retry.maxAttempts > 0 && Unwrapped(m) && Keyed(m)
    requires x.id in m && m[x.id] == x && x.IsDue(t.headNow) && x.IsDue(t.pickNow)
    requires forall i :: 0 <= i < |t.waiting| ==> t.waiting[i].id != x.id
    requires UnwrappedArrivals(t.waiting) && Attempted(m, t) != Some(x)
    ensures var m' := EntriesAfter(config, m, t);
            && Unwrapped(m') && Keyed(m') && x.id in m' && m'[x.id] == x
            && Attempted(m, t).Some? && Before(Attempted(m, t).value, x)
            && Total(config.retry, Some(x), m') + 1
               <= Total(config.retry, Some(x), m) + ShareOfArrivals(config.retry, Some(x), t.waiting)
  {
    var m1 := Merged(m, t.waiting);
    MergedKeyed(m, t.waiting);
    MergedUnwrapped(m, t.waiting);
    MergedKeeps(m, t.waiting, x.id);
    TotalMerged(config.retry, Some(x), m, t.waiting);
    assert HasDue(m, t.headNow) && HasDue(m1, t.pickNow);
    NextExists(m1, t.pickNow);
    var e := Attempted(m, t).value;
    assert e.id != x.id && Before(e, x);
    AttemptSpends(config, Some(x), m1, e, t);
    SettledKeepsId(config, e, t);
  }

  /**
    While a due entry waits, every pass spends an attempt on an entry ranked before it,
    and there are at most as many as the budgets of those entries, those that arrive
    meanwhile included.
  */
  lemma {:induction false} BoundedOvertaking(config: Config, m: map<Id, QueueEntry>, turns: seq<Turn>, x: QueueEntry)
    requires config.retry.maxAttempts > 0 && Unwrapped(m) && Keyed(m)
    requires x.id in m && m[x.id] == x && Waits(config, m, turns, x)
    ensures var s := Attempts(config, m, turns);
            && |s| == |turns|
            && (forall i :: 0 <= i < |s| ==> Before(s[i], x))
    ensures |turns| + Total(config.retry, Some(x), EntriesAfterAll(config, m, turns))
         <= Total(config.retry, Some(x), m) + ShareOfAllArrivals(config.retry, x, turns)
    decreases |turns|
  {
    if turns == [] {
    } else {
      assert m[x.id].IsDue(turns[0].headNow) && HasDue(m, turns[0].headNow);
      OvertakingTurn(config, m, turns[0], x);
      BoundedOvertaking(config, EntriesAfter(config, m, turns[0]), turns[1..], x);
    }
  }
}
