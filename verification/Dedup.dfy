/** The message deduplicator: a map from ids to the time they were last accepted, pruned when it grows. */
module Dedup {

  const PRUNE_ABOVE := 5000

  /** Times and the time to live are in the clock's smallest unit. */
  datatype Call = Call(id: string, now: int)

  /** Accept and drop what is older than `ttl` when more than 5000 entries are kept. */
  function Accepted(m: map<string, int>, ttl: int, c: Call): (r: map<string, int>) {
    var grown := m[c.id := c.now];
    if |grown| > PRUNE_ABOVE then map k | k in grown && !(c.now - grown[k] > ttl) :: grown[k] else grown
  }

  predicate Fresh(m: map<string, int>, ttl: int, c: Call) {
    c.id in m && c.now - m[c.id] < ttl
  }

  /** One call: the new map and whether the id is a duplicate. */
  function Judge(m: map<string, int>, ttl: int, c: Call): (r: (map<string, int>, bool)) {
    if c.id == "" || ttl <= 0 then (m, false)
    else if Fresh(m, ttl, c) then (m, true)
    else (Accepted(m, ttl, c), false)
  }

  class Deduper {
    var m: map<string, int>
    const ttl: int

    constructor (ttl: int)
      ensures this.ttl == ttl && m == map[]
    {
      this.ttl := ttl;
      m := map[];
    }

    method IsDuplicate(id: string, now: int) returns (dup: bool)
      modifies this
      ensures (m, dup) == Judge(old(m), ttl, Call(id, now))
    {
      if id == "" || ttl <= 0 { return false; }
      if id in m && now - m[id] < ttl { return true; }
      m := m[id := now];
      if |m| > PRUNE_ABOVE {
        ghost var grown := m;
        var todo := m.Keys;
        while todo != {}
          invariant todo <= grown.Keys
          invariant m == map k | k in grown && (k in todo || !(now - grown[k] > ttl)) :: grown[k]
          decreases todo
        {
          var k :| k in todo;
          assert m[k] == grown[k];
          if now - m[k] > ttl { m := m - {k}; }
          todo := todo - {k};
        }
        assert m == Accepted(old(m), ttl, Call(id, now));
      }
      dup := false;
    }
  }

  // ----------------------------------------------------- the unpruned history

  /** The answers to a sequence of calls and the map at the end. */
  function Run(ttl: int, calls: seq<Call>): (r: (map<string, int>, seq<bool>))
    ensures |r.1| == |calls|
  {
    if calls == [] then (map[], [])
    else
      var before := Run(ttl, calls[..|calls| - 1]);
      var (m, dup) := Judge(before.0, ttl, calls[|calls| - 1]);
      (m, before.1 + [dup])
  }

  /** The same with a map that is never pruned. */
  function RunUnpruned(ttl: int, calls: seq<Call>): (r: (map<string, int>, seq<bool>))
    ensures |r.1| == |calls|
  {
    if calls == [] then (map[], [])
    else
      var before := RunUnpruned(ttl, calls[..|calls| - 1]);
      var c := calls[|calls| - 1];
      if c.id == "" || ttl <= 0 then (before.0, before.1 + [false])
      else if Fresh(before.0, ttl, c) then (before.0, before.1 + [true])
      else (before.0[c.id := c.now], before.1 + [false])
  }

  // ------------------------------------------------------- what the clock must do

  /** A call that adds an entry and then drops the old ones. */
  predicate Prunes(m: map<string, int>, ttl: int, c: Call) {
    c.id != "" && ttl > 0 && !Fresh(m, ttl, c) && |m[c.id := c.now]| > PRUNE_ABOVE
  }

  predicate PrunesAt(ttl: int, calls: seq<Call>, i: nat)
    requires i < |calls|
  {
    Prunes(Run(ttl, calls[..i]).0, ttl, calls[i])
  }

  /** After a call that pruned, no call that reads the clock reads more than one unit less.  A call with
      an empty id reads no clock. */
  ghost predicate Steady(ttl: int, calls: seq<Call>) {
    forall i: nat, j: nat | i < j < |calls| && PrunesAt(ttl, calls, i) && calls[j].id != "" ::
      calls[i].now <= calls[j].now + 1
  }

  /** From one call to any later one the clock goes back by at most `d` units. */
  ghost predicate SlipsAtMost(calls: seq<Call>, d: nat) {
    forall i, j | 0 <= i < j < |calls| && calls[i].id != "" && calls[j].id != "" :: calls[i].now <= calls[j].now + d
  }

  lemma PrunesInPrefix(ttl: int, calls: seq<Call>, n: nat, i: nat)
    requires i < n <= |calls|
    ensures PrunesAt(ttl, calls[..n], i) <==> PrunesAt(ttl, calls, i)
  {
    hide Prunes, Run;
    assert calls[..n][..i] == calls[..i];
  }

  lemma SteadyPrefix(ttl: int, calls: seq<Call>, n: nat)
    requires Steady(ttl, calls) && n <= |calls|
    ensures Steady(ttl, calls[..n])
  {
    hide PrunesAt;
    forall i: nat | i < n ensures PrunesAt(ttl, calls[..n], i) <==> PrunesAt(ttl, calls, i) {
      PrunesInPrefix(ttl, calls, n, i);
    }
  }

  /** A pruning call saw this time as out of date. */
  ghost predicate Forgotten(ttl: int, calls: seq<Call>, t: int) {
    exists i: nat :: i < |calls| && PrunesAt(ttl, calls, i) && calls[i].now - t > ttl
  }

  lemma ForgottenStays(ttl: int, calls: seq<Call>, n: nat, t: int)
    requires n <= |calls| && Forgotten(ttl, calls[..n], t)
    ensures Forgotten(ttl, calls, t)
  {
    hide PrunesAt;
    var i: nat :| i < n && PrunesAt(ttl, calls[..n], i) && calls[..n][i].now - t > ttl;
    PrunesInPrefix(ttl, calls, n, i);
  }

  /** What was out of date for a pruning call is not fresh for any later one. */
  lemma ForgottenIsStale(ttl: int, calls: seq<Call>, t: int)
    requires calls != [] && Steady(ttl, calls) && calls[|calls| - 1].id != ""
    requires Forgotten(ttl, calls[..|calls| - 1], t)
    ensures calls[|calls| - 1].now - t >= ttl
  {
    hide PrunesAt;
    var n := |calls| - 1;
    var i: nat :| i < n && PrunesAt(ttl, calls[..n], i) && calls[..n][i].now - t > ttl;
    PrunesInPrefix(ttl, calls, n, i);
  }

  /** The pruned map is the history without some entries that a pruning call saw as out of date. */
  ghost predicate Covers(ttl: int, calls: seq<Call>, full: map<string, int>, m: map<string, int>) {
    && (forall k | k in m :: k in full && full[k] == m[k])
    && (forall k | k in full && k !in m :: Forgotten(ttl, calls, full[k]))
  }

  lemma SameFreshness(ttl: int, calls: seq<Call>, full: map<string, int>, m: map<string, int>)
    requires calls != [] && Steady(ttl, calls) && Covers(ttl, calls[..|calls| - 1], full, m)
    requires calls[|calls| - 1].id != ""
    ensures Fresh(full, ttl, calls[|calls| - 1]) <==> Fresh(m, ttl, calls[|calls| - 1])
  {
    hide Forgotten, Steady;
    var c := calls[|calls| - 1];
    if c.id in full && c.id !in m { ForgottenIsStale(ttl, calls, full[c.id]); }
  }

  lemma CoversAccepted(ttl: int, calls: seq<Call>, full: map<string, int>, m: map<string, int>)
    requires calls != [] && Covers(ttl, calls, full, m) && m == Run(ttl, calls[..|calls| - 1]).0
    requires var c := calls[|calls| - 1]; c.id != "" && ttl > 0 && !Fresh(m, ttl, c)
    ensures var c := calls[|calls| - 1]; Covers(ttl, calls, full[c.id := c.now], Accepted(m, ttl, c))
  {
    var c := calls[|calls| - 1];
    if |m[c.id := c.now]| > PRUNE_ABOVE {
      assert PrunesAt(ttl, calls, |calls| - 1);
      hide Run, PrunesAt;
      assert forall t: int :: c.now - t > ttl ==> Forgotten(ttl, calls, t);
      hide Forgotten;
    }
  }

  /** On every call the deduplicator answers as if it had never forgotten anything. */
  lemma {:induction false} AgreesWithHistory(ttl: int, calls: seq<Call>)
    requires Steady(ttl, calls)
    ensures Run(ttl, calls).1 == RunUnpruned(ttl, calls).1
    ensures Covers(ttl, calls, RunUnpruned(ttl, calls).0, Run(ttl, calls).0)
  {
    if calls != [] {
      var n := |calls| - 1;
      SteadyPrefix(ttl, calls, n);
      AgreesWithHistory(ttl, calls[..n]);
      var full, m, c := RunUnpruned(ttl, calls[..n]).0, Run(ttl, calls[..n]).0, calls[n];
      hide Steady, Forgotten, PrunesAt, Accepted, Fresh;
      assert Covers(ttl, calls, full, m) by {
        forall k | k in full && k !in m ensures Forgotten(ttl, calls, full[k]) {
          ForgottenStays(ttl, calls, n, full[k]);
        }
      }
      if c.id != "" { SameFreshness(ttl, calls, full, m); }
      if c.id != "" && ttl > 0 && !Fresh(m, ttl, c) { CoversAccepted(ttl, calls, full, m); }
      hide Covers;
    }
  }

  // ---------------------------------------------- the history, whatever the clock

  /** The i-th call carried an id and the history let it through. */
  predicate KeptAt(ttl: int, calls: seq<Call>, i: nat) {
    i < |calls| && calls[i].id != "" && !RunUnpruned(ttl, calls).1[i]
  }

  lemma {:induction false} HistoryStays(ttl: int, calls: seq<Call>, n: nat)
    requires n <= |calls|
    ensures RunUnpruned(ttl, calls[..n]).1 == RunUnpruned(ttl, calls).1[..n]
    decreases |calls| - n
  {
    if n == |calls| {
      assert calls[..n] == calls;
    } else {
      HistoryStays(ttl, calls, n + 1);
      assert calls[..n + 1][..n] == calls[..n];
    }
  }

  lemma KeptInPrefix(ttl: int, calls: seq<Call>, i: nat, n: nat)
    requires i < n <= |calls|
    ensures KeptAt(ttl, calls[..n], i) <==> KeptAt(ttl, calls, i)
  {
    hide RunUnpruned;
    HistoryStays(ttl, calls, n);
  }

  /** The history holds, for each id, a time no earlier than any at which it was let through. */
  lemma {:induction false} HistoryRemembers(ttl: int, calls: seq<Call>, i: nat)
    requires ttl > 0 && KeptAt(ttl, calls, i)
    ensures calls[i].id in RunUnpruned(ttl, calls).0 && calls[i].now <= RunUnpruned(ttl, calls).0[calls[i].id]
  {
    var n := |calls| - 1;
    if i < n {
      KeptInPrefix(ttl, calls, i, n);
      HistoryRemembers(ttl, calls[..n], i);
      hide KeptAt;
    }
  }

  /** Every entry of the history is the time of a call with that id that was let through. */
  lemma {:induction false} HistoryIsKept(ttl: int, calls: seq<Call>, id: string) returns (i: nat)
    requires id in RunUnpruned(ttl, calls).0
    ensures KeptAt(ttl, calls, i) && calls[i].id == id && calls[i].now == RunUnpruned(ttl, calls).0[id]
  {
    var n := |calls| - 1;
    var before := RunUnpruned(ttl, calls[..n]).0;
    if id in before && RunUnpruned(ttl, calls).0[id] == before[id] {
      i := HistoryIsKept(ttl, calls[..n], id);
      KeptInPrefix(ttl, calls, i, n);
    } else {
      i := n;
    }
  }

  lemma LastOfHistory(ttl: int, calls: seq<Call>, k: nat)
    requires k < |calls| && ttl > 0 && calls[k].id != ""
    ensures RunUnpruned(ttl, calls).1[k] <==> Fresh(RunUnpruned(ttl, calls[..k]).0, ttl, calls[k])
  {
    HistoryStays(ttl, calls, k + 1);
    assert calls[..k + 1][..k] == calls[..k];
  }

  /** The history calls a call a duplicate exactly when some earlier one with the same id was let through
      less than ttl before, whatever the clock does. */
  lemma HistoryMeaning(ttl: int, calls: seq<Call>, k: nat)
    requires ttl > 0 && k < |calls| && calls[k].id != ""
    ensures RunUnpruned(ttl, calls).1[k] <==>
      exists i: nat :: i < k && KeptAt(ttl, calls, i) && calls[i].id == calls[k].id && calls[k].now - calls[i].now < ttl
  {
    hide RunUnpruned, KeptAt;
    LastOfHistory(ttl, calls, k);
    var before := calls[..k];
    if RunUnpruned(ttl, calls).1[k] {
      var i := HistoryIsKept(ttl, before, calls[k].id);
      assert i < k by { KeptIsIndex(ttl, before, i); }
      KeptInPrefix(ttl, calls, i, k);
    }
    forall i: nat | i < k && KeptAt(ttl, calls, i) && calls[i].id == calls[k].id && calls[k].now - calls[i].now < ttl
      ensures RunUnpruned(ttl, calls).1[k]
    {
      KeptInPrefix(ttl, calls, i, k);
      HistoryRemembers(ttl, before, i);
    }
  }

  lemma KeptIsIndex(ttl: int, calls: seq<Call>, i: nat)
    requires KeptAt(ttl, calls, i)
    ensures i < |calls|
  {
  }

  // --------------------------------------------------------- accepted calls

  /** The i-th call carried an id and was let through. */
  predicate AcceptedAt(ttl: int, calls: seq<Call>, i: nat) {
    i < |calls| && calls[i].id != "" && !Run(ttl, calls).1[i]
  }

  lemma {:induction false} AnswersStay(ttl: int, calls: seq<Call>, n: nat)
    requires n <= |calls|
    ensures Run(ttl, calls[..n]).1 == Run(ttl, calls).1[..n]
    decreases |calls| - n
  {
    if n == |calls| {
      assert calls[..n] == calls;
    } else {
      AnswersStay(ttl, calls, n + 1);
      assert calls[..n + 1][..n] == calls[..n];
    }
  }

  /** A call is called a duplicate exactly when some earlier accepted call had the same id and was less
      than ttl ago. */
  lemma DuplicateIff(ttl: int, calls: seq<Call>, k: nat)
    requires ttl > 0 && Steady(ttl, calls) && k < |calls| && calls[k].id != ""
    ensures Run(ttl, calls).1[k] <==>
      exists i: nat ::
        i < k && AcceptedAt(ttl, calls, i) && calls[i].id == calls[k].id && calls[k].now - calls[i].now < ttl
  {
    hide Run, RunUnpruned, Steady;
    AgreesWithHistory(ttl, calls);
    HistoryMeaning(ttl, calls, k);
    assert forall i: nat :: AcceptedAt(ttl, calls, i) <==> KeptAt(ttl, calls, i);
  }

  /** Two accepted calls with the same id are at least ttl apart. */
  lemma AcceptedApart(ttl: int, calls: seq<Call>, i: nat, j: nat)
    requires ttl > 0 && Steady(ttl, calls)
    requires i < j && AcceptedAt(ttl, calls, i) && AcceptedAt(ttl, calls, j) && calls[i].id == calls[j].id
    ensures calls[j].now - calls[i].now >= ttl
  {
    hide Run, Steady;
    DuplicateIff(ttl, calls, j);
  }

  /** After an accepted call, a map of more than 5000 entries holds none older than ttl. */
  lemma LargeMapIsRecent(ttl: int, calls: seq<Call>, k: string)
    requires ttl > 0 && calls != [] && AcceptedAt(ttl, calls, |calls| - 1)
    requires |Run(ttl, calls).0| > 5000 && k in Run(ttl, calls).0
    ensures calls[|calls| - 1].now - Run(ttl, calls).0[k] <= ttl
  {
    var init, c := calls[..|calls| - 1], calls[|calls| - 1];
    var before := Run(ttl, init).0;
    assert Run(ttl, calls).0 == Accepted(before, ttl, c);
  }

  // ------------------------------------------------ how far the clock may go back

  /** As long as nothing is pruned the map is the history, whatever the clock does. */
  lemma {:induction false} NeverPruned(ttl: int, calls: seq<Call>)
    requires forall i: nat | i < |calls| :: !PrunesAt(ttl, calls, i)
    ensures Run(ttl, calls) == RunUnpruned(ttl, calls)
  {
    if calls != [] {
      var n := |calls| - 1;
      forall i: nat | i < n ensures !PrunesAt(ttl, calls[..n], i) { PrunesInPrefix(ttl, calls, n, i); }
      NeverPruned(ttl, calls[..n]);
      assert !PrunesAt(ttl, calls, n);
    }
  }

  lemma {:induction false} RunSize(ttl: int, calls: seq<Call>)
    ensures |Run(ttl, calls).0| <= |calls|
  {
    if calls != [] {
      var n := |calls| - 1;
      RunSize(ttl, calls[..n]);
      var m, c := Run(ttl, calls[..n]).0, calls[n];
      assert |m[c.id := c.now]| <= |m| + 1;
      AcceptedSize(m, ttl, c);
    }
  }

  lemma AcceptedSize(m: map<string, int>, ttl: int, c: Call)
    ensures |Accepted(m, ttl, c)| <= |m[c.id := c.now]|
  {
    var grown := m[c.id := c.now];
    SubMap(Accepted(m, ttl, c), grown);
  }

  lemma SubMap(a: map<string, int>, b: map<string, int>)
    requires a.Keys <= b.Keys
    ensures |a| <= |b|
  {
    assert |a.Keys| <= |b.Keys| by { SubSet(a.Keys, b.Keys); }
  }

  lemma {:induction false} SubSet(a: set<string>, b: set<string>)
    requires a <= b
    ensures |a| <= |b|
  {
    assert b == a + (b - a);
  }

  /** A clock that steps back by one unit at most is steady, and so is any clock over at most 5001 calls,
      since only the last of them can prune. */
  lemma SteadyWhen(ttl: int, calls: seq<Call>)
    ensures SlipsAtMost(calls, 1) || |calls| <= PRUNE_ABOVE + 1 ==> Steady(ttl, calls)
  {
    forall i: nat | i < |calls| && PrunesAt(ttl, calls, i) ensures calls[i].id != "" { hide Run; }
    hide PrunesAt;
    if |calls| <= PRUNE_ABOVE + 1 {
      forall i: nat | i < |calls| - 1 ensures !PrunesAt(ttl, calls, i) { TooFewToPrune(ttl, calls, i); }
    }
  }

  lemma TooFewToPrune(ttl: int, calls: seq<Call>, i: nat)
    requires i < PRUNE_ABOVE && i < |calls|
    ensures !PrunesAt(ttl, calls, i)
  {
    hide Run;
    RunSize(ttl, calls[..i]);
  }

  /** The first id at time zero, then `n` others just past its time to live. */
  function Flood(ids: nat -> string, ttl: int, n: nat): (r: seq<Call>)
    ensures |r| == n + 1
  {
    if n == 0 then [Call(ids(0), 0)] else Flood(ids, ttl, n - 1) + [Call(ids(n), ttl + 1)]
  }

  ghost predicate Distinct(ids: nat -> string, n: nat) {
    (forall i: nat | i <= n :: ids(i) != "") && (forall i: nat, j: nat | i < j <= n :: ids(i) != ids(j))
  }

  /** A map the flood has filled so far. */
  ghost predicate Filled(ids: nat -> string, m: map<string, int>, n: nat) {
    |m| == n + 1 && ids(0) in m && m[ids(0)] == 0 && forall k | k in m :: exists j: nat :: j <= n && ids(j) == k
  }

  lemma RunAppend(ttl: int, calls: seq<Call>, c: Call)
    requires ttl > 0 && c.id != ""
    ensures Run(ttl, calls + [c]).0 == Judge(Run(ttl, calls).0, ttl, c).0
    ensures !Fresh(RunUnpruned(ttl, calls).0, ttl, c) ==>
      RunUnpruned(ttl, calls + [c]).0 == RunUnpruned(ttl, calls).0[c.id := c.now]
  {
    assert (calls + [c])[..|calls|] == calls;
  }

  lemma FillOne(ids: nat -> string, m: map<string, int>, now: int, n: nat)
    requires Distinct(ids, n + 1) && Filled(ids, m, n)
    ensures ids(n + 1) !in m && Filled(ids, m[ids(n + 1) := now], n + 1)
  {
    var t := m[ids(n + 1) := now];
    assert ids(0) != ids(n + 1);
    forall k | k in t ensures exists j: nat :: j <= n + 1 && ids(j) == k {
      if k in m { var j: nat :| j <= n && ids(j) == k; }
    }
  }

  lemma EmptyRun(ttl: int)
    ensures Run(ttl, []).0 == map[] && RunUnpruned(ttl, []).0 == map[]
  {
  }

  lemma FillWithoutPruning(ids: nat -> string, ttl: int, m: map<string, int>, n: nat)
    requires ttl > 0 && Distinct(ids, n + 1) && Filled(ids, m, n) && n + 1 < PRUNE_ABOVE
    ensures var c := Call(ids(n + 1), ttl + 1);
      c.id != "" && !Fresh(m, ttl, c) && Judge(m, ttl, c).0 == m[c.id := c.now] && Filled(ids, m[c.id := c.now], n + 1)
  {
    FillOne(ids, m, ttl + 1, n);
  }

  lemma FloodStarts(ids: nat -> string, ttl: int)
    requires ttl > 0 && Distinct(ids, 0)
    ensures var m := Run(ttl, Flood(ids, ttl, 0)).0;
      RunUnpruned(ttl, Flood(ids, ttl, 0)).0 == m && Filled(ids, m, 0)
  {
    hide Run, RunUnpruned;
    assert Run(ttl, []).0 == map[] && RunUnpruned(ttl, []).0 == map[] by { EmptyRun(ttl); }
    RunAppend(ttl, [], Call(ids(0), 0));
    assert Flood(ids, ttl, 0) == [] + [Call(ids(0), 0)];
  }

  lemma FloodLast(ids: nat -> string, ttl: int, n: nat)
    requires 0 < n
    ensures Flood(ids, ttl, n) == Flood(ids, ttl, n - 1) + [Call(ids(n), ttl + 1)]
    ensures Distinct(ids, n) ==> Distinct(ids, n - 1)
  {
  }

  lemma {:induction false} FloodFills(ids: nat -> string, ttl: int, n: nat)
    requires ttl > 0 && n < PRUNE_ABOVE && Distinct(ids, n)
    ensures var m := Run(ttl, Flood(ids, ttl, n)).0;
      RunUnpruned(ttl, Flood(ids, ttl, n)).0 == m && Filled(ids, m, n)
  {
    hide Run, RunUnpruned, Flood, Filled, Distinct, Judge, Fresh;
    if n == 0 {
      FloodStarts(ids, ttl);
    } else {
      FloodLast(ids, ttl, n);
      FloodFills(ids, ttl, n - 1);
      var init := Flood(ids, ttl, n - 1);
      FillWithoutPruning(ids, ttl, Run(ttl, init).0, n - 1);
      RunAppend(ttl, init, Call(ids(n), ttl + 1));
    }
  }

  lemma {:induction false} FloodTimes(ids: nat -> string, ttl: int, n: nat)
    requires ttl > 0
    ensures forall i | 0 <= i <= n :: Flood(ids, ttl, n)[i] == Call(ids(i), if i == 0 then 0 else ttl + 1)
  {
    if n > 0 { FloodTimes(ids, ttl, n - 1); }
  }

  /** The flood prunes the first id; then the same id again, two units before the flood's time. */
  function Forgetful(ids: nat -> string, ttl: int): (r: seq<Call>)
    ensures |r| == PRUNE_ABOVE + 2
  {
    Flood(ids, ttl, PRUNE_ABOVE) + [Call(ids(0), ttl - 1)]
  }

  /** The last call is let through although the history knows its id as ttl - 1 old. */
  lemma FloodForgets(ids: nat -> string, ttl: int)
    requires ttl > 0 && Distinct(ids, PRUNE_ABOVE)
    ensures var calls := Forgetful(ids, ttl);
      !Run(ttl, calls).1[PRUNE_ABOVE + 1] && RunUnpruned(ttl, calls).1[PRUNE_ABOVE + 1]
  {
    FloodFills(ids, ttl, PRUNE_ABOVE - 1);
    var init, full := Flood(ids, ttl, PRUNE_ABOVE - 1), Flood(ids, ttl, PRUNE_ABOVE);
    var m := Run(ttl, init).0;
    RunAppend(ttl, init, Call(ids(PRUNE_ABOVE), ttl + 1));
    FillOne(ids, m, ttl + 1, PRUNE_ABOVE - 1);
    hide Flood;
    assert ids(0) !in Run(ttl, full).0;
    assert Fresh(RunUnpruned(ttl, full).0, ttl, Call(ids(0), ttl - 1));
    assert (full + [Call(ids(0), ttl - 1)])[..|full|] == full;
  }

  lemma ForgetfulSlips(ids: nat -> string, ttl: int)
    requires ttl > 0
    ensures SlipsAtMost(Forgetful(ids, ttl), 2)
  {
    FloodTimes(ids, ttl, PRUNE_ABOVE);
    hide Flood;
  }

  function Filler(n: nat): (r: string) {
    seq(n + 1, _ => 'x')
  }

  lemma FillersDiffer(n: nat)
    ensures Distinct(Filler, n)
  {
    forall i: nat ensures |Filler(i)| == i + 1 { }
  }

  /** The clock is read before the lock is taken, so it may go back from one call to the next.  Over all
      sequences of at most `n` calls whose clock never goes back by more than `d` units the deduplicator
      answers like the history exactly when `d` is at most 1 or `n` at most 5001. */
  lemma AgreementThreshold(ttl: int, d: nat, n: nat)
    requires ttl > 0
    ensures (forall calls | SlipsAtMost(calls, d) && |calls| <= n :: Run(ttl, calls).1 == RunUnpruned(ttl, calls).1)
       <==> d <= 1 || n <= 5001
  {
    if d <= 1 || n <= PRUNE_ABOVE + 1 {
      forall calls | SlipsAtMost(calls, d) && |calls| <= n ensures Run(ttl, calls).1 == RunUnpruned(ttl, calls).1 {
        SteadyWhen(ttl, calls);
        AgreesWithHistory(ttl, calls);
      }
    } else {
      FillersDiffer(PRUNE_ABOVE);
      FloodForgets(Filler, ttl);
      ForgetfulSlips(Filler, ttl);
      hide Forgetful;
      assert SlipsAtMost(Forgetful(Filler, ttl), d);
    }
  }
}
