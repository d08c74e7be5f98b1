/**
  Which entry the worker attempts next, and how long it sleeps when none is due.

  `next_due` folds an iterator over an unordered map. Here the fold runs over any
  enumeration of the map; the lemmas show the answer depends on the map alone.
*/
module Scheduling {
  import opened Messages

  // ----- the order -----

  /** Strict lexicographic order of strings. */
  predicate StringBelow(a: string, b: string) {
    b != "" && (a == "" || a[0] < b[0] || (a[0] == b[0] && StringBelow(a[1..], b[1..])))
  }

  lemma {:induction false} StringTrichotomy(a: string, b: string)
    ensures !(StringBelow(a, b) && StringBelow(b, a))
    ensures a != b <==> StringBelow(a, b) || StringBelow(b, a)
  {
    if a == "" || b == "" {
    } else {
      StringTrichotomy(a[1..], b[1..]);
      assert a == [a[0]] + a[1..] && b == [b[0]] + b[1..];
    }
  }

  lemma {:induction false} StringTransitive(a: string, b: string, c: string)
    requires StringBelow(a, b) && StringBelow(b, c)
    ensures StringBelow(a, c)
  {
    if a != "" && a[0] == b[0] == c[0] {
      StringTransitive(a[1..], b[1..], c[1..]);
    }
  }

  /** `a` leaves the queue before `b`: higher priority, then older, then smaller id. */
  predicate Before(a: QueueEntry, b: QueueEntry) {
    || a.priority.Rank() > b.priority.Rank()
    || (a.priority == b.priority && a.createdAt < b.createdAt)
    || (a.priority == b.priority && a.createdAt == b.createdAt && StringBelow(a.id, b.id))
  }

  /** A strict total order on entries of different ids. */
  lemma BeforeIsTotal(a: QueueEntry, b: QueueEntry)
    ensures !(Before(a, b) && Before(b, a))
    ensures a.id != b.id ==> Before(a, b) || Before(b, a)
    ensures Before(a, b) ==> a != b
    ensures a.id != b.id ==> (Before(a, b) <==> Precedes(a, b))
  {
    StringTrichotomy(a.id, b.id);
    if a.id != b.id {
      BeforeMeans(a, b);
    }
  }

  lemma BeforeIsTransitive(a: QueueEntry, b: QueueEntry, c: QueueEntry)
    requires Before(a, b) && Before(b, c)
    ensures Before(a, c)
  {
    if StringBelow(a.id, b.id) && StringBelow(b.id, c.id) {
      StringTransitive(a.id, b.id, c.id);
    }
  }

  // ----- the order, said outright -----

  /** `a` is a proper prefix of `b`, or has the smaller character where they first differ. */
  ghost predicate IdPrecedes(a: string, b: string) {
    exists k: nat :: DiffersAt(a, b, k) && (k == |a| || (k < |b| && a[k] < b[k]))
  }

  predicate DiffersAt(a: string, b: string, k: nat) {
    && k <= |a| && k <= |b| && a[..k] == b[..k]
    && (k == |a| ==> k < |b|) && (k < |a| && k < |b| ==> a[k] != b[k])
  }

  lemma {:induction false} StringBelowMeans(a: string, b: string)
    ensures StringBelow(a, b) <==> IdPrecedes(a, b)
  {
    if a == "" || b == "" {
      assert a != b ==> DiffersAt(a, b, 0);
    } else if a[0] != b[0] {
      assert DiffersAt(a, b, 0);
      forall k: nat ensures DiffersAt(a, b, k) ==> k == 0 {
        SameStart(a, b, k);
      }
    } else {
      StringBelowMeans(a[1..], b[1..]);
      if StringBelow(a, b) {
        var k: nat :| DiffersAt(a[1..], b[1..], k) && (k == |a[1..]| || (k < |b[1..]| && a[1..][k] < b[1..][k]));
        assert a[..k + 1] == [a[0]] + a[1..][..k] && b[..k + 1] == [b[0]] + b[1..][..k];
        assert DiffersAt(a, b, k + 1);
      }
      if IdPrecedes(a, b) {
        var k: nat :| DiffersAt(a, b, k) && (k == |a| || (k < |b| && a[k] < b[k]));
        assert k > 0;
        assert a[1..][..k - 1] == a[..k][1..] && b[1..][..k - 1] == b[..k][1..];
        assert DiffersAt(a[1..], b[1..], k - 1);
      }
    }
  }

  lemma SameStart(a: string, b: string, k: nat)
    ensures 0 < k <= |a| && k <= |b| && a[..k] == b[..k] ==> a[0] == b[0]
  {
    if 0 < k <= |a| && k <= |b| && a[..k] == b[..k] {
      assert a[0] == a[..k][0] && b[0] == b[..k][0];
    }
  }

  /** High before normal before low; within a priority older first; within a second by id. */
  ghost predicate Precedes(e: QueueEntry, x: QueueEntry) {
    && (x.priority == High ==> e.priority == High)
    && (x.priority == Normal ==> e.priority != Low)
    && (x.priority == e.priority ==> e.createdAt <= x.createdAt)
    && (x.priority == e.priority && x.createdAt == e.createdAt && x.id != e.id ==> IdPrecedes(e.id, x.id))
  }

  /** What `Before` orders by. */
  lemma BeforeMeans(a: QueueEntry, b: QueueEntry)
    requires a.id != b.id
    ensures Before(a, b) <==> Precedes(a, b)
  {
    StringBelowMeans(a.id, b.id);
    StringBelowMeans(b.id, a.id);
    StringTrichotomy(a.id, b.id);
  }

  // ----- the choice -----

  /** Every key is the id of its entry. */
  ghost predicate Keyed(m: map<Id, QueueEntry>) {
    forall id :: id in m ==> m[id].id == id
  }

  /** `vals` lists the values of `m`, in some order. */
  ghost predicate Enumerates(vals: seq<QueueEntry>, m: map<Id, QueueEntry>) {
    && (forall i :: 0 <= i < |vals| ==> vals[i].id in m && m[vals[i].id] == vals[i])
    && (forall id :: id in m ==> m[id] in vals)
  }

  ghost predicate HasDue(m: map<Id, QueueEntry>, now: u64) {
    exists id :: id in m && m[id].IsDue(now)
  }

  /** `e` is due and leaves before every other due entry of `m`. */
  ghost predicate IsNextDue(m: map<Id, QueueEntry>, now: u64, e: QueueEntry) {
    && e.id in m && m[e.id] == e && e.IsDue(now)
    && (forall id :: id in m && id != e.id && m[id].IsDue(now) ==> Before(e, m[id]))
  }

  /** `min_by`: the later element replaces the best so far only when it is strictly less. */
  function MinOf(best: QueueEntry, rest: seq<QueueEntry>): QueueEntry
    decreases |rest|
  {
    if rest == [] then best else MinOf(if Before(rest[0], best) then rest[0] else best, rest[1..])
  }

  function Due(vals: seq<QueueEntry>, now: u64): (due: seq<QueueEntry>)
    ensures forall e :: e in due <==> e in vals && e.IsDue(now)
  {
    if vals == [] then []
    else (if vals[0].IsDue(now) then [vals[0]] else []) + Due(vals[1..], now)
  }

  function NextDue(vals: seq<QueueEntry>, now: u64): Option<QueueEntry> {
    var due := Due(vals, now);
    if due == [] then None else Some(MinOf(due[0], due[1..]))
  }

  /** `m` is at or before `e` in the order. */
  predicate AtOrBefore(m: QueueEntry, e: QueueEntry) {
    m == e || Before(m, e)
  }

  lemma {:induction false} MinOfIsLeast(best: QueueEntry, rest: seq<QueueEntry>)
    requires forall i :: 0 <= i < |rest| && rest[i].id == best.id ==> rest[i] == best
    requires forall i, j :: 0 <= i < |rest| && 0 <= j < |rest| && rest[i].id == rest[j].id ==> rest[i] == rest[j]
    ensures var m := MinOf(best, rest);
            && (m == best || m in rest)
            && AtOrBefore(m, best)
            && (forall i :: 0 <= i < |rest| ==> AtOrBefore(m, rest[i]))
    decreases |rest|
  {
    if rest == [] {
    } else {
      var first := rest[0];
      var best' := if Before(first, best) then first else best;
      MinOfIsLeast(best', rest[1..]);
      BeforeIsTotal(first, best);
      var m := MinOf(best', rest[1..]);
      forall e | e in [first, best] ensures AtOrBefore(m, e) {
        if m != best' && best' != e {
          BeforeIsTransitive(m, best', e);
        }
      }
      assert first in [first, best] && best in [first, best];
      assert forall i :: 1 <= i < |rest| ==> rest[i] == rest[1..][i - 1];
    }
  }

  lemma NextDueUnique(m: map<Id, QueueEntry>, now: u64, e: QueueEntry, f: QueueEntry)
    requires IsNextDue(m, now, e) && IsNextDue(m, now, f)
    ensures e == f
  {
    BeforeIsTotal(e, f);
  }

  /** Whatever the iteration order, the fold finds the one least due entry, if any is due. */
  lemma NextDueIsLeast(vals: seq<QueueEntry>, m: map<Id, QueueEntry>, now: u64)
    requires Enumerates(vals, m) && Keyed(m)
    ensures NextDue(vals, now).Some? <==> HasDue(m, now)
    ensures NextDue(vals, now).Some? ==> IsNextDue(m, now, NextDue(vals, now).value)
  {
    var due := Due(vals, now);
    assert forall e :: e in due ==> e in vals;
    if due == [] {
      forall id | id in m ensures !m[id].IsDue(now) {
        assert m[id] in vals;
      }
    } else {
      forall e | e in due ensures e.id in m && m[e.id] == e {
        assert e in vals;
      }
      MinOfIsLeast(due[0], due[1..]);
      var e := NextDue(vals, now).value;
      assert e in due;
      forall id | id in m && id != e.id && m[id].IsDue(now) ensures Before(e, m[id]) {
        assert m[id] in due;
        assert due == [due[0]] + due[1..];
      }
    }
  }

  /** `e` may be attempted and nothing else that may be goes before it. */
  ghost predicate FirstOfDue(m: map<Id, QueueEntry>, now: u64, e: QueueEntry) {
    && e.id in m && m[e.id] == e && e.nextAttemptAt <= now
    && (forall id :: id in m && m[id].nextAttemptAt <= now ==> Precedes(e, m[id]))
  }

  lemma NextIsFirst(m: map<Id, QueueEntry>, now: u64, e: QueueEntry)
    requires Keyed(m)
    ensures IsNextDue(m, now, e) <==> FirstOfDue(m, now, e)
  {
    forall id | id in m && id != e.id ensures Before(e, m[id]) <==> Precedes(e, m[id]) {
      BeforeMeans(e, m[id]);
    }
  }

  /** The fold picks something exactly when an entry's time has come, and then the first by priority, age and id. */
  lemma NextDueIsFirst(vals: seq<QueueEntry>, m: map<Id, QueueEntry>, now: u64)
    requires Enumerates(vals, m) && Keyed(m)
    ensures NextDue(vals, now).Some? <==> exists id :: id in m && m[id].nextAttemptAt <= now
    ensures NextDue(vals, now).Some? ==> FirstOfDue(m, now, NextDue(vals, now).value)
  {
    NextDueIsLeast(vals, m, now);
    assert HasDue(m, now) <==> exists id :: id in m && m[id].nextAttemptAt <= now;
    if NextDue(vals, now).Some? {
      NextIsFirst(m, now, NextDue(vals, now).value);
    }
  }

  /** Two iteration orders of one map give one answer. */
  lemma NextDueOrderFree(vals: seq<QueueEntry>, vals': seq<QueueEntry>, m: map<Id, QueueEntry>, now: u64)
    requires Enumerates(vals, m) && Enumerates(vals', m) && Keyed(m)
    ensures NextDue(vals, now) == NextDue(vals', now)
  {
    NextDueIsLeast(vals, m, now);
    NextDueIsLeast(vals', m, now);
    if NextDue(vals, now).Some? {
      NextDueUnique(m, now, NextDue(vals, now).value, NextDue(vals', now).value);
    }
  }

  /** Reading the map in the order its iterator happens to have. */
  method Values(m: map<Id, QueueEntry>) returns (vals: seq<QueueEntry>)
    requires Keyed(m)
    ensures Enumerates(vals, m)
    ensures |vals| == |m|
  {
    vals := [];
    var todo := m.Keys;
    while todo != {}
      invariant todo <= m.Keys
      invariant forall i :: 0 <= i < |vals| ==> vals[i].id in m && m[vals[i].id] == vals[i]
      invariant forall id :: id in m && id !in todo ==> m[id] in vals
      invariant |vals| + |todo| == |m|
    {
      var id :| id in todo;
      vals := vals + [m[id]];
      todo := todo - {id};
    }
  }

  lemma {:induction false} HasEnumeration(m: map<Id, QueueEntry>) returns (vals: seq<QueueEntry>)
    requires Keyed(m)
    ensures Enumerates(vals, m)
    decreases |m|
  {
    if m == map[] {
      vals := [];
    } else {
      var id :| id in m;
      var rest := HasEnumeration(m - {id});
      vals := rest + [m[id]];
      assert forall i :: 0 <= i < |rest| ==> vals[i] == rest[i];
      forall k | k in m ensures m[k] in vals {
        assert k != id ==> k in m - {id};
      }
    }
  }

  /** The entry `next_due` picks from `m`. */
  ghost function Next(m: map<Id, QueueEntry>, now: u64): (r: Option<QueueEntry>)
    ensures r.Some? ==> IsNextDue(m, now, r.value)
  {
    if e :| IsNextDue(m, now, e) then Some(e) else None
  }

  lemma NextExists(m: map<Id, QueueEntry>, now: u64)
    requires Keyed(m)
    ensures Next(m, now).Some? <==> HasDue(m, now)
  {
    var vals := HasEnumeration(m);
    NextDueIsLeast(vals, m, now);
  }

  lemma NextDueComputesNext(vals: seq<QueueEntry>, m: map<Id, QueueEntry>, now: u64)
    requires Enumerates(vals, m) && Keyed(m)
    ensures NextDue(vals, now) == Next(m, now)
  {
    NextDueIsLeast(vals, m, now);
    NextExists(m, now);
    if NextDue(vals, now).Some? {
      NextDueUnique(m, now, NextDue(vals, now).value, Next(m, now).value);
    }
  }

  // ----- the sleep -----

  function SaturatingSub(a: nat, b: nat): nat {
    if a < b then 0 else a - b
  }

  function MinWait(vals: seq<QueueEntry>, now: u64): nat
    requires vals != []
  {
    var w := SaturatingSub(vals[0].nextAttemptAt, now);
    if |vals| == 1 then w
    else
      var rest := MinWait(vals[1..], now);
      if rest < w then rest else w
  }

  function SecondsUntilNext(vals: seq<QueueEntry>, now: u64): Option<nat> {
    if vals == [] then None else Some(MinWait(vals, now))
  }

  lemma {:induction false} MinWaitIsLeast(vals: seq<QueueEntry>, now: u64)
    requires vals != []
    ensures exists i :: 0 <= i < |vals| && SaturatingSub(vals[i].nextAttemptAt, now) == MinWait(vals, now)
    ensures forall i :: 0 <= i < |vals| ==> MinWait(vals, now) <= SaturatingSub(vals[i].nextAttemptAt, now)
  {
    if |vals| == 1 {
      assert SaturatingSub(vals[0].nextAttemptAt, now) == MinWait(vals, now);
    } else {
      MinWaitIsLeast(vals[1..], now);
      var j :| 0 <= j < |vals[1..]| && SaturatingSub(vals[1..][j].nextAttemptAt, now) == MinWait(vals[1..], now);
      var k := if SaturatingSub(vals[0].nextAttemptAt, now) == MinWait(vals, now) then 0 else j + 1;
      assert SaturatingSub(vals[k].nextAttemptAt, now) == MinWait(vals, now);
      assert forall i :: 1 <= i < |vals| ==> vals[i] == vals[1..][i - 1];
    }
  }

  /**
    With nothing due the worker sleeps at least a second, no entry becomes due
    before the sleep is over, and some entry is due when it is.
  */
  lemma SleepIsExact(vals: seq<QueueEntry>, m: map<Id, QueueEntry>, now: u64)
    requires Enumerates(vals, m) && Keyed(m) && m != map[] && !HasDue(m, now)
    ensures SecondsUntilNext(vals, now).Some?
    ensures var s := SecondsUntilNext(vals, now).value;
            && s >= 1
            && now + s < U64_LIMIT
            && HasDue(m, now + s)
            && (forall t: u64 :: t < now + s ==> !HasDue(m, t))
  {
    var id :| id in m;
    assert m[id] in vals;
    MinWaitIsLeast(vals, now);
    var s := SecondsUntilNext(vals, now).value;
    var i :| 0 <= i < |vals| && SaturatingSub(vals[i].nextAttemptAt, now) == s;
    assert m[vals[i].id] == vals[i] && !vals[i].IsDue(now);
    assert vals[i].nextAttemptAt == now + s;
    forall t: u64, k | t < now + s && k in m ensures !m[k].IsDue(t) {
      var j :| 0 <= j < |vals| && vals[j] == m[k];
      assert s <= SaturatingSub(vals[j].nextAttemptAt, now);
      assert !m[k].IsDue(now);
    }
  }
}
