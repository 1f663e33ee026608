/** What the polling loop delivers over whole lives of the process, with crashes after any action, restarts
    from the stored cursor, and a disk that may fail to take a cursor. */
module Delivery {
  import opened PollLoop

  // ---------------------------------------------------------- within one trace

  function HandledIn(trace: seq<Action>): (r: seq<nat>) {
    if trace == [] then []
    else
      var a := trace[|trace| - 1];
      HandledIn(trace[..|trace| - 1]) + if a.Handled? then [a.msg] else []
  }

  /** The messages from one position of the log up to another. */
  function Range(lo: nat, hi: nat): (r: seq<nat>)
    requires lo <= hi
    ensures forall m | m in r :: lo <= m < hi
  {
    seq(hi - lo, i requires 0 <= i < hi - lo => lo + i)
  }

  /** A gateway for which every cursor stands for a position in its log: it answers a poll with the messages
      after the cursor and, if there are any, with a cursor for where they end. */
  ghost predicate Honest(pos: string -> nat, buf: string, a: Answer) {
    Success(a) ==>
      if a.cursor == "" then a.msgs == []
      else pos(buf) <= pos(a.cursor) && a.msgs == Range(pos(buf), pos(a.cursor))
  }

  ghost predicate HonestScript(pos: string -> nat, s: State, script: seq<Turn>) {
    forall k | 0 <= k < |script| :: Honest(pos, Run(s, script[..k]).buf, script[k].answer)
  }

  predicate Ascending(xs: seq<nat>) {
    forall i, j | 0 <= i < j < |xs| :: xs[i] < xs[j]
  }

  /** How far in the log a trace has got that began with this cursor and handled messages in turn. */
  function Done(pos: string -> nat, stored: string, trace: seq<Action>): (n: nat) {
    pos(stored) + |HandledIn(trace)|
  }

  /** The cursor in the cell before the last one was stored there. */
  function StoredBefore(stored: string, trace: seq<Action>): (r: string) {
    if trace == [] then stored
    else
      var init := trace[..|trace| - 1];
      if trace[|trace| - 1].Stored? then StoredAfter(stored, init) else StoredBefore(stored, init)
  }

  /** What may be in a trace cut anywhere, whatever the disk does: the messages from the stored cursor on,
      one after the other, at least up to the cursor stored before the last. */
  ghost predicate Covered(pos: string -> nat, stored: string, trace: seq<Action>) {
    var done := Done(pos, stored, trace);
    && HandledIn(trace) == Range(pos(stored), done)
    && pos(StoredBefore(stored, trace)) <= done && pos(stored) <= pos(StoredAfter(stored, trace))
  }

  /** Every prefix of the trace is covered: a crash may come after any action. */
  ghost predicate CoveredThroughout(pos: string -> nat, stored: string, trace: seq<Action>) {
    forall n | 0 <= n <= |trace| :: Covered(pos, stored, trace[..n])
  }

  lemma AppendHandled(trace: seq<Action>, a: Action)
    ensures HandledIn(trace + [a]) == HandledIn(trace) + if a.Handled? then [a.msg] else []
  {
    assert (trace + [a])[..|trace|] == trace;
  }

  lemma AppendBefore(stored: string, trace: seq<Action>, a: Action)
    ensures StoredBefore(stored, trace + [a])
      == if a.Stored? then StoredAfter(stored, trace) else StoredBefore(stored, trace)
  {
    hide StoredAfter;
    assert (trace + [a])[..|trace|] == trace;
  }

  /** What an action may be: the next message, or the cursor of the next batch once the last one is done,
      or a poll. */
  ghost predicate InTurn(pos: string -> nat, stored: string, trace: seq<Action>, a: Action) {
    && (a.Stored? ==> pos(StoredAfter(stored, trace)) <= Done(pos, stored, trace) <= pos(a.cursor))
    && (a.Handled? ==> a.msg == Done(pos, stored, trace))
  }

  lemma CoveredSnoc(pos: string -> nat, stored: string, trace: seq<Action>, a: Action)
    requires Covered(pos, stored, trace) && InTurn(pos, stored, trace, a)
    ensures Covered(pos, stored, trace + [a])
  {
    hide HandledIn, StoredAfter, StoredBefore;
    AppendHandled(trace, a);
    AppendStored(stored, trace, a);
    AppendBefore(stored, trace, a);
  }

  lemma AppendCovered(pos: string -> nat, stored: string, trace: seq<Action>, a: Action)
    requires CoveredThroughout(pos, stored, trace) && InTurn(pos, stored, trace, a)
    ensures CoveredThroughout(pos, stored, trace + [a])
  {
    hide HandledIn, StoredAfter, Covered, InTurn;
    var all := trace + [a];
    assert trace[..|trace|] == trace && all[..|all|] == all;
    assert Covered(pos, stored, trace[..|trace|]);
    CoveredSnoc(pos, stored, trace, a);
    forall n | 0 <= n <= |all| ensures Covered(pos, stored, all[..n]) {
      if n <= |trace| { assert all[..n] == trace[..n]; }
    }
  }

  /** Handling a batch. */
  lemma {:induction false} HandleBatch(pos: string -> nat, stored: string, trace: seq<Action>, lo: nat, hi: nat)
    requires lo <= hi && CoveredThroughout(pos, stored, trace) && Done(pos, stored, trace) == lo
    ensures var t := trace + HandledAll(Range(lo, hi));
      && CoveredThroughout(pos, stored, t)
      && StoredAfter(stored, t) == StoredAfter(stored, trace) && Done(pos, stored, t) == hi
    decreases hi - lo
  {
    hide CoveredThroughout, HandledIn, StoredAfter;
    if lo == hi {
      assert trace + HandledAll(Range(lo, hi)) == trace;
    } else {
      HandleBatch(pos, stored, trace, lo, hi - 1);
      var t, a := trace + HandledAll(Range(lo, hi - 1)), Handled(hi - 1);
      assert trace + HandledAll(Range(lo, hi)) == t + [a];
      AppendCovered(pos, stored, t, a);
      AppendHandled(t, a);
      AppendStored(stored, t, a);
    }
  }

  /** Between turns the last batch is done, and the loop's cursor is at or past the stored one. */
  ghost predicate CaughtUp(pos: string -> nat, stored: string, s: State) {
    && CoveredThroughout(pos, stored, s.trace)
    && Done(pos, stored, s.trace) == pos(s.buf) && pos(StoredAfter(stored, s.trace)) <= pos(s.buf)
  }

  lemma HonestTurn(pos: string -> nat, stored: string, s: State, t: Turn)
    requires CaughtUp(pos, stored, s) && Honest(pos, s.buf, t.answer)
    ensures CaughtUp(pos, stored, Step(s, t))
  {
    hide CoveredThroughout, HandledIn, StoredAfter;
    var poll := Polled(PollTime(s, t.pauseOver), s.buf, s.timeout);
    AppendCovered(pos, stored, s.trace, poll);
    AppendHandled(s.trace, poll);
    AppendStored(stored, s.trace, poll);
    var t1 := s.trace + [poll];
    var a := Response(t.answer, s.buf);
    if Success(a) {
      if a.cursor == "" {
        assert Step(s, t).trace == t1;
      } else {
        assert a.msgs == Range(pos(s.buf), pos(a.cursor));
        var t2 := if t.saved then t1 + [Stored(a.cursor)] else t1;
        if t.saved {
          AppendCovered(pos, stored, t1, Stored(a.cursor));
          AppendHandled(t1, Stored(a.cursor));
          AppendStored(stored, t1, Stored(a.cursor));
        }
        HandleBatch(pos, stored, t2, pos(s.buf), pos(a.cursor));
        assert Step(s, t).trace == t2 + HandledAll(a.msgs);
      }
    }
  }

  lemma LastPrefix(pos: string -> nat, stored: string, trace: seq<Action>)
    requires CoveredThroughout(pos, stored, trace)
    ensures Covered(pos, stored, trace)
  {
    assert trace[..|trace|] == trace;
  }

  /** One run of the loop from a stored cursor, whatever the disk does: every prefix is covered, and at the
      end exactly the messages from the first cursor to the loop's were handled, each once, in log order. */
  lemma {:induction false} SessionCovered(pos: string -> nat, start: nat, stored: string, script: seq<Turn>)
    requires HonestScript(pos, Start(start, stored), script)
    ensures CaughtUp(pos, stored, Run(Start(start, stored), script))
  {
    var s0 := Start(start, stored);
    if script == [] {
      assert Covered(pos, stored, []);
    } else {
      var n := |script| - 1;
      HonestPrefix(pos, s0, script);
      SessionCovered(pos, start, stored, script[..n]);
      var s := Run(s0, script[..n]);
      assert Run(s0, script) == Step(s, script[n]);
      assert Honest(pos, s.buf, script[n].answer);
      hide Run, HonestScript, Step, CaughtUp;
      HonestTurn(pos, stored, s, script[n]);
    }
  }

  lemma HonestPrefix(pos: string -> nat, s: State, script: seq<Turn>)
    requires HonestScript(pos, s, script) && script != []
    ensures HonestScript(pos, s, script[..|script| - 1])
  {
    hide Run, Honest;
    var n := |script| - 1;
    forall k | 0 <= k < n ensures Honest(pos, Run(s, script[..n][..k]).buf, script[..n][k].answer) {
      assert script[..n][..k] == script[..k];
    }
  }

  // ------------------------------------------------------------- within one life

  /** One life of the process: started at some time, it acted through a script until it was cut off after
      `cut` actions. */
  datatype Life = Life(start: nat, script: seq<Turn>, cut: nat)

  function TraceOf(stored: string, l: Life): (trace: seq<Action>) {
    var full := Run(Start(l.start, stored), l.script).trace;
    if l.cut <= |full| then full[..l.cut] else full
  }

  /** Cut off anywhere, and whatever the disk does, a life has handled the messages from its first cursor on,
      one after the other. */
  lemma LifeCovered(pos: string -> nat, stored: string, l: Life)
    requires HonestScript(pos, Start(l.start, stored), l.script)
    ensures Covered(pos, stored, TraceOf(stored, l))
  {
    SessionCovered(pos, l.start, stored, l.script);
    LastPrefix(pos, stored, Run(Start(l.start, stored), l.script).trace);
    hide Run, Covered, HonestScript;
  }

  /** A life left the cell behind when it handled messages that the cursor there does not cover. */
  predicate LeftBehind(pos: string -> nat, stored: string, l: Life) {
    Done(pos, stored, TraceOf(stored, l)) > pos(StoredAfter(stored, TraceOf(stored, l)))
  }

  /** The state in which a life begins its k-th turn. */
  function TurnState(stored: string, l: Life, k: nat): (s: State)
    requires k <= |l.script|
  {
    Run(Start(l.start, stored), l.script[..k])
  }

  /** A turn that writes a cursor: the poll succeeded with one, and the disk takes it. */
  predicate Saves(s: State, t: Turn) {
    var a := Response(t.answer, s.buf);
    Success(a) && a.cursor != "" && t.saved
  }

  /** A turn with messages to handle. */
  predicate Brings(s: State, t: Turn) {
    var a := Response(t.answer, s.buf);
    Success(a) && a.msgs != []
  }

  /** The k-th turn wrote its cursor before the cut. */
  predicate Wrote(stored: string, l: Life, k: nat)
    requires k < |l.script|
  {
    var s := TurnState(stored, l, k);
    Saves(s, l.script[k]) && |s.trace| + 1 < l.cut
  }

  /** The k-th turn handled at least one of its messages before the cut. */
  predicate Began(stored: string, l: Life, k: nat)
    requires k < |l.script|
  {
    var s := TurnState(stored, l, k);
    Brings(s, l.script[k]) && |s.trace| + (if Saves(s, l.script[k]) then 2 else 1) < l.cut
  }

  /** Some turn began to handle its messages, and neither it nor any later one wrote a cursor. */
  ghost predicate UnsavedSince(stored: string, l: Life) {
    exists k: nat :: k < |l.script| && Began(stored, l, k)
      && forall j: nat | k <= j < |l.script| :: !Wrote(stored, l, j)
  }

  lemma {:induction false} HandledPrefix(stored: string, trace: seq<Action>, msgs: seq<nat>, m: nat)
    requires m <= |msgs|
    ensures var t := trace + HandledAll(msgs)[..m];
      StoredAfter(stored, t) == StoredAfter(stored, trace) && |HandledIn(t)| == |HandledIn(trace)| + m
    decreases m
  {
    hide StoredAfter, HandledIn;
    var acts := HandledAll(msgs);
    if m == 0 {
      assert trace + acts[..0] == trace;
    } else {
      HandledPrefix(stored, trace, msgs, m - 1);
      var t, a := trace + acts[..m - 1], acts[m - 1];
      assert trace + acts[..m] == t + [a];
      AppendStored(stored, t, a);
      AppendHandled(t, a);
    }
  }

  /** What a turn adds to the trace: the poll, then the cursor it writes, then the messages it handles. */
  lemma TurnShape(s: State, t: Turn)
    ensures var a := Response(t.answer, s.buf); var poll := Polled(PollTime(s, t.pauseOver), s.buf, s.timeout);
      var msgs := if Success(a) then HandledAll(a.msgs) else [];
      Step(s, t).trace == s.trace + [poll] + (if Saves(s, t) then [Stored(a.cursor)] else []) + msgs
  {
  }

  /** The first `cut` actions of a trace, or all of them. */
  function Cut(trace: seq<Action>, cut: nat): (r: seq<Action>) {
    if cut <= |trace| then trace[..cut] else trace
  }

  /** A turn cut off after its poll: what it stored and how many messages it handled. */
  lemma TurnCut(stored: string, s: State, t: Turn, cut: nat)
    requires |s.trace| < cut
    ensures var a, trace := Response(t.answer, s.buf), Cut(Step(s, t).trace, cut);
      var wrote := Saves(s, t) && |s.trace| + 1 < cut;
      var began := Brings(s, t) && |s.trace| + (if Saves(s, t) then 2 else 1) < cut;
      && StoredAfter(stored, trace) == (if wrote then a.cursor else StoredAfter(stored, s.trace))
      && |HandledIn(trace)| >= |HandledIn(s.trace)|
      && (|HandledIn(trace)| > |HandledIn(s.trace)| <==> began)
      && |HandledIn(trace)| <= |HandledIn(s.trace)| + if Success(a) then |a.msgs| else 0
  {
    hide StoredAfter, HandledIn, Step, PollTime, Response;
    TurnShape(s, t);
    var a := Response(t.answer, s.buf);
    var poll := Polled(PollTime(s, t.pauseOver), s.buf, s.timeout);
    var msgs := if Success(a) then a.msgs else [];
    var t1 := s.trace + [poll];
    var t2 := if Saves(s, t) then t1 + [Stored(a.cursor)] else t1;
    AppendStored(stored, s.trace, poll);
    AppendHandled(s.trace, poll);
    if Saves(s, t) {
      AppendStored(stored, t1, Stored(a.cursor));
      AppendHandled(t1, Stored(a.cursor));
    }
    assert Step(s, t).trace == t2 + HandledAll(msgs);
    CutAfter(stored, t1, t2, msgs, cut);
  }

  lemma CutAfter(stored: string, t1: seq<Action>, t2: seq<Action>, msgs: seq<nat>, cut: nat)
    requires t1 <= t2 && |t2| <= |t1| + 1 && |t1| <= cut
    ensures var trace := Cut(t2 + HandledAll(msgs), cut);
      && (cut < |t2| ==> trace == t1)
      && (cut >= |t2| ==>
            && StoredAfter(stored, trace) == StoredAfter(stored, t2)
            && |HandledIn(trace)| == |HandledIn(t2)| + if cut - |t2| <= |msgs| then cut - |t2| else |msgs|)
  {
    hide StoredAfter, HandledIn;
    var acts := HandledAll(msgs);
    if cut >= |t2| {
      var m := if cut - |t2| <= |msgs| then cut - |t2| else |msgs|;
      HandledPrefix(stored, t2, msgs, m);
      assert Cut(t2 + acts, cut) == t2 + acts[..m];
    }
  }

  // -------------------------------------------------- when a life leaves the cell behind

  lemma TurnStates(stored: string, l: Life, k: nat)
    requires k < |l.script|
    ensures var init := l.(script := l.script[..|l.script| - 1]);
      k < |init.script| ==>
        (Began(stored, init, k) <==> Began(stored, l, k)) && (Wrote(stored, init, k) <==> Wrote(stored, l, k))
  {
    hide Run, Saves, Brings;
    if k < |l.script| - 1 { assert l.script[..|l.script| - 1][..k] == l.script[..k]; }
  }

  /** The last turn of a life, when it got as far as its poll. */
  lemma LastTurn(pos: string -> nat, stored: string, l: Life, s: State)
    requires l.script != [] && s == TurnState(stored, l, |l.script| - 1) && |s.trace| < l.cut
    requires CaughtUp(pos, stored, s) && Honest(pos, s.buf, l.script[|l.script| - 1].answer)
    ensures var n := |l.script| - 1;
      LeftBehind(pos, stored, l) <==>
        !Wrote(stored, l, n) && (Began(stored, l, n) || Done(pos, stored, s.trace) > pos(StoredAfter(stored, s.trace)))
  {
    var n := |l.script| - 1;
    var t := l.script[n];
    RunSnoc(Start(l.start, stored), l.script, n);
    TurnCut(stored, s, t, l.cut);
    assert TraceOf(stored, l) == Cut(Step(s, t).trace, l.cut);
    hide Run, StoredAfter, HandledIn, Step, CoveredThroughout, TraceOf;
  }

  /** Whatever the disk does, a life leaves the cell behind exactly when some turn of it began to handle its
      messages and neither that turn nor a later one wrote a cursor before the cut. */
  lemma {:induction false} LeftBehindIff(pos: string -> nat, stored: string, l: Life)
    requires HonestScript(pos, Start(l.start, stored), l.script)
    ensures LeftBehind(pos, stored, l) <==> UnsavedSince(stored, l)
    decreases |l.script|
  {
    if l.script == [] {
      assert Run(Start(l.start, stored), []).trace == [];
    } else {
      var n := |l.script| - 1;
      var init := l.(script := l.script[..n]);
      var s := TurnState(stored, l, n);
      HonestPrefix(pos, Start(l.start, stored), l.script);
      LeftBehindIff(pos, stored, init);
      SessionCovered(pos, l.start, stored, init.script);
      assert Honest(pos, s.buf, l.script[n].answer);
      forall k: nat | k < n
        ensures (Began(stored, init, k) <==> Began(stored, l, k)) && (Wrote(stored, init, k) <==> Wrote(stored, l, k))
      {
        TurnStates(stored, l, k);
      }
      if l.cut <= |s.trace| {
        CutBefore(pos, stored, l, s);
        hide Wrote, Began, LeftBehind;
        SameUnsaved(stored, init, l);
      } else {
        LastTurn(pos, stored, l, s);
        assert LeftBehind(pos, stored, init) <==> Done(pos, stored, s.trace) > pos(StoredAfter(stored, s.trace));
        hide Wrote, Began, LeftBehind;
        MoreUnsaved(stored, init, l);
      }
    }
  }

  lemma CutBefore(pos: string -> nat, stored: string, l: Life, s: State)
    requires l.script != [] && s == TurnState(stored, l, |l.script| - 1) && l.cut <= |s.trace|
    ensures var n := |l.script| - 1;
      !Wrote(stored, l, n) && !Began(stored, l, n)
      && (LeftBehind(pos, stored, l) <==> LeftBehind(pos, stored, l.(script := l.script[..n])))
  {
    var n := |l.script| - 1;
    RunSnoc(Start(l.start, stored), l.script, n);
    TurnShape(s, l.script[n]);
    hide Run, Step, StoredAfter, HandledIn;
    assert TraceOf(stored, l) == TraceOf(stored, l.(script := l.script[..n]));
  }

  lemma SameUnsaved(stored: string, init: Life, l: Life)
    requires l.script != [] && init.script == l.script[..|l.script| - 1]
    requires forall k: nat | k < |l.script| - 1 ::
      (Began(stored, init, k) <==> Began(stored, l, k)) && (Wrote(stored, init, k) <==> Wrote(stored, l, k))
    requires !Wrote(stored, l, |l.script| - 1) && !Began(stored, l, |l.script| - 1)
    ensures UnsavedSince(stored, init) <==> UnsavedSince(stored, l)
  {
    hide Wrote, Began;
  }

  lemma MoreUnsaved(stored: string, init: Life, l: Life)
    requires l.script != [] && init.script == l.script[..|l.script| - 1]
    requires forall k: nat | k < |l.script| - 1 ::
      (Began(stored, init, k) <==> Began(stored, l, k)) && (Wrote(stored, init, k) <==> Wrote(stored, l, k))
    ensures UnsavedSince(stored, l) <==>
      !Wrote(stored, l, |l.script| - 1) && (Began(stored, l, |l.script| - 1) || UnsavedSince(stored, init))
  {
    hide Wrote, Began;
  }

  // ---------------------------------------------------------------- over many lives

  /** The cursor in the cell after some lives, each restarted from what the one before left. */
  function CellAfter(stored: string, lives: seq<Life>): (cell: string) {
    if lives == [] then stored
    else
      var c := CellAfter(stored, lives[..|lives| - 1]);
      StoredAfter(c, TraceOf(c, lives[|lives| - 1]))
  }

  function AllHandled(stored: string, lives: seq<Life>): (msgs: seq<nat>) {
    if lives == [] then []
    else
      AllHandled(stored, lives[..|lives| - 1])
      + HandledIn(TraceOf(CellAfter(stored, lives[..|lives| - 1]), lives[|lives| - 1]))
  }

  /** The gateway keeps its word in every life. */
  ghost predicate HonestLives(pos: string -> nat, stored: string, lives: seq<Life>) {
    forall k | 0 <= k < |lives| ::
      HonestScript(pos, Start(lives[k].start, CellAfter(stored, lives[..k])), lives[k].script)
  }

  /** The trace of the k-th life. */
  function TraceIn(stored: string, lives: seq<Life>, k: nat): (trace: seq<Action>)
    requires k < |lives|
  {
    TraceOf(CellAfter(stored, lives[..k]), lives[k])
  }

  /** How far in the log the k-th life got. */
  function Reached(pos: string -> nat, stored: string, lives: seq<Life>, k: nat): (r: nat)
    requires k < |lives|
  {
    Done(pos, CellAfter(stored, lives[..k]), TraceIn(stored, lives, k))
  }

  /** Every life that handles anything starts at or past where each life before it got. */
  ghost predicate StartsClear(pos: string -> nat, stored: string, lives: seq<Life>) {
    forall j: nat, k: nat | j < k < |lives| ::
      HandledIn(TraceIn(stored, lives, k)) == [] || Reached(pos, stored, lives, j) <= pos(CellAfter(stored, lives[..k]))
  }

  predicate Once(xs: seq<nat>) {
    forall i, j | 0 <= i < j < |xs| :: xs[i] != xs[j]
  }

  lemma LivesPrefix(pos: string -> nat, stored: string, lives: seq<Life>)
    requires HonestLives(pos, stored, lives) && lives != []
    ensures HonestLives(pos, stored, lives[..|lives| - 1])
  {
    hide HonestScript, CellAfter;
    var n := |lives| - 1;
    forall k | 0 <= k < n
      ensures HonestScript(pos, Start(lives[..n][k].start, CellAfter(stored, lives[..n][..k])), lives[..n][k].script)
    {
      assert lives[..n][..k] == lives[..k];
    }
  }

  lemma SameInPrefix(pos: string -> nat, stored: string, lives: seq<Life>, n: nat, k: nat)
    requires k < n <= |lives|
    ensures CellAfter(stored, lives[..n][..k]) == CellAfter(stored, lives[..k])
    ensures TraceIn(stored, lives[..n], k) == TraceIn(stored, lives, k)
    ensures Reached(pos, stored, lives[..n], k) == Reached(pos, stored, lives, k)
  {
    hide CellAfter, TraceOf, Done;
    assert lives[..n][..k] == lives[..k];
  }

  /** The k-th life handles the messages from its cell's cursor up to where it gets, and never moves the
      cell's cursor back. */
  lemma LifeIn(pos: string -> nat, stored: string, lives: seq<Life>, k: nat)
    requires HonestLives(pos, stored, lives) && k < |lives|
    ensures var c := pos(CellAfter(stored, lives[..k]));
      && c <= Reached(pos, stored, lives, k)
      && HandledIn(TraceIn(stored, lives, k)) == Range(c, Reached(pos, stored, lives, k))
      && c <= pos(CellAfter(stored, lives[..k + 1]))
  {
    assert lives[..k + 1][..k] == lives[..k];
    assert CellAfter(stored, lives[..k + 1]) == StoredAfter(CellAfter(stored, lives[..k]), TraceIn(stored, lives, k));
    LifeCovered(pos, CellAfter(stored, lives[..k]), lives[k]);
    hide CellAfter, TraceOf, HandledIn, StoredAfter, StoredBefore;
  }

  lemma {:induction false} CellsAscend(pos: string -> nat, stored: string, lives: seq<Life>, j: nat, k: nat)
    requires HonestLives(pos, stored, lives) && j <= k <= |lives|
    ensures pos(CellAfter(stored, lives[..j])) <= pos(CellAfter(stored, lives[..k]))
    decreases k - j
  {
    hide CellAfter, HonestLives, TraceIn, Reached;
    if j < k {
      LifeIn(pos, stored, lives, j);
      CellsAscend(pos, stored, lives, j + 1, k);
    }
  }

  /** What was handled over all lives, life by life. */
  lemma {:induction false} HandledSomewhere(stored: string, lives: seq<Life>, m: nat)
    ensures m in AllHandled(stored, lives) <==>
      exists k: nat :: k < |lives| && m in HandledIn(TraceIn(stored, lives, k))
  {
    hide HandledIn, TraceOf, CellAfter;
    if lives != [] {
      var n := |lives| - 1;
      HandledSomewhere(stored, lives[..n], m);
      assert AllHandled(stored, lives) == AllHandled(stored, lives[..n]) + HandledIn(TraceIn(stored, lives, n));
      forall k: nat | k < n ensures TraceIn(stored, lives[..n], k) == TraceIn(stored, lives, k) {
        SameInPrefix(_ => 0, stored, lives, n, k);
      }
    }
  }

  lemma RangeHas(lo: nat, hi: nat)
    requires lo <= hi
    ensures forall m: nat :: m in Range(lo, hi) <==> lo <= m < hi
  {
    forall m: nat | lo <= m < hi ensures m in Range(lo, hi) { assert Range(lo, hi)[m - lo] == m; }
  }

  lemma InLife(pos: string -> nat, stored: string, lives: seq<Life>, k: nat, m: nat)
    requires HonestLives(pos, stored, lives) && k < |lives|
    ensures pos(CellAfter(stored, lives[..k])) <= pos(CellAfter(stored, lives))
    ensures m in HandledIn(TraceIn(stored, lives, k)) <==>
      pos(CellAfter(stored, lives[..k])) <= m < Reached(pos, stored, lives, k)
  {
    hide CellAfter, HonestLives, TraceIn, Reached, HandledIn;
    assert lives[..|lives|] == lives;
    LifeIn(pos, stored, lives, k);
    RangeHas(pos(CellAfter(stored, lives[..k])), Reached(pos, stored, lives, k));
    CellsAscend(pos, stored, lives, k, |lives|);
  }

  /** Seen from the end of some lives, at position c: everything handled lies below c exactly when no life got
      past c, and when one did, the message at c itself was handled. */
  lemma AllBelow(pos: string -> nat, stored: string, lives: seq<Life>)
    requires HonestLives(pos, stored, lives)
    ensures var c, xs := pos(CellAfter(stored, lives)), AllHandled(stored, lives);
      && ((forall m | m in xs :: m < c) <==> forall k: nat | k < |lives| :: Reached(pos, stored, lives, k) <= c)
      && ((forall m | m in xs :: m < c) || c in xs)
  {
    hide CellAfter, AllHandled, HonestLives, TraceIn, Reached, HandledIn;
    var c, xs := pos(CellAfter(stored, lives)), AllHandled(stored, lives);
    if k: nat :| k < |lives| && Reached(pos, stored, lives, k) > c {
      InLife(pos, stored, lives, k, c);
      HandledSomewhere(stored, lives, c);
      assert c in xs;
    } else {
      forall m | m in xs ensures m < c {
        HandledSomewhere(stored, lives, m);
        var k: nat :| k < |lives| && m in HandledIn(TraceIn(stored, lives, k));
        InLife(pos, stored, lives, k, m);
      }
    }
  }

  lemma OneMoreRange(xs: seq<nat>, c: nat, hi: nat)
    requires c <= hi && ((forall m | m in xs :: m < c) || c in xs)
    ensures var clear := c == hi || forall m | m in xs :: m < c;
      && (Ascending(xs + Range(c, hi)) <==> Ascending(xs) && clear)
      && (Once(xs + Range(c, hi)) <==> Once(xs) && clear)
  {
    var ys := Range(c, hi);
    var all := xs + ys;
    assert forall i | 0 <= i < |xs| :: all[i] == xs[i];
    assert forall i | 0 <= i < |ys| :: all[|xs| + i] == ys[i] == c + i;
    if c in xs && c < hi {
      var i :| 0 <= i < |xs| && xs[i] == c;
      assert all[i] == c && all[|xs|] == c;
    }
    if (forall m | m in xs :: m < c) {
      forall i | 0 <= i < |xs| ensures all[i] < c { assert xs[i] in xs; }
    }
  }

  lemma ClearOneMore(pos: string -> nat, stored: string, lives: seq<Life>)
    requires lives != []
    ensures var n := |lives| - 1;
      StartsClear(pos, stored, lives) <==>
        StartsClear(pos, stored, lives[..n]) &&
        (HandledIn(TraceIn(stored, lives, n)) == [] ||
         forall j: nat | j < n :: Reached(pos, stored, lives[..n], j) <= pos(CellAfter(stored, lives[..n])))
  {
    hide CellAfter, TraceIn, Reached, HandledIn;
    var n := |lives| - 1;
    forall k: nat | k < n
      ensures CellAfter(stored, lives[..n][..k]) == CellAfter(stored, lives[..k])
      ensures TraceIn(stored, lives[..n], k) == TraceIn(stored, lives, k)
      ensures Reached(pos, stored, lives[..n], k) == Reached(pos, stored, lives, k)
    {
      SameInPrefix(pos, stored, lives, n, k);
    }
  }

  /** Over any number of lives, with crashes after any action and whatever the disk does: no message is
      handled twice, and equally the messages are handled in log order, exactly when every life that handles
      anything starts at or past where each life before it got. */
  lemma {:induction false} AtMostOnceIff(pos: string -> nat, stored: string, lives: seq<Life>)
    requires HonestLives(pos, stored, lives)
    ensures Once(AllHandled(stored, lives)) <==> StartsClear(pos, stored, lives)
    ensures Ascending(AllHandled(stored, lives)) <==> StartsClear(pos, stored, lives)
  {
    if lives != [] {
      var n := |lives| - 1;
      var init := lives[..n];
      LivesPrefix(pos, stored, lives);
      AtMostOnceIff(pos, stored, init);
      assert AllHandled(stored, lives) == AllHandled(stored, init) + HandledIn(TraceIn(stored, lives, n));
      hide AllHandled, CellAfter, TraceIn, Reached, HandledIn, StartsClear, Once, Ascending, HonestLives;
      ClearOneMore(pos, stored, lives);
      LifeIn(pos, stored, lives, n);
      AllBelow(pos, stored, init);
      OneMoreRange(AllHandled(stored, init), pos(CellAfter(stored, init)), Reached(pos, stored, lives, n));
    }
  }

  // ------------------------------------------------------------ what crashes lose

  /** What a life loses: the messages its last cursor covers that it did not come to handle. */
  function LostIn(pos: string -> nat, stored: string, l: Life): (lost: seq<nat>) {
    var trace := TraceOf(stored, l);
    var done, covered := Done(pos, stored, trace), pos(StoredAfter(stored, trace));
    if done <= covered then Range(done, covered) else []
  }

  function AllLost(pos: string -> nat, stored: string, lives: seq<Life>): (lost: seq<nat>) {
    if lives == [] then []
    else
      AllLost(pos, stored, lives[..|lives| - 1])
      + LostIn(pos, CellAfter(stored, lives[..|lives| - 1]), lives[|lives| - 1])
  }

  /** Cut off anywhere, a life has handled the messages from its first cursor on, one after the other, and
      loses only messages past the cursor stored before its last. */
  lemma LifeLaw(pos: string -> nat, stored: string, l: Life)
    requires HonestScript(pos, Start(l.start, stored), l.script)
    ensures Covered(pos, stored, TraceOf(stored, l))
    ensures forall m | m in LostIn(pos, stored, l) ::
      pos(StoredBefore(stored, TraceOf(stored, l))) <= m < pos(StoredAfter(stored, TraceOf(stored, l)))
  {
    LifeCovered(pos, stored, l);
    hide TraceOf, HandledIn, StoredAfter, StoredBefore, HonestScript;
  }

  /** Of the messages from `lo` up to `hi`, and no others, each is either handled or lost. */
  ghost predicate Splits(handled: seq<nat>, lost: seq<nat>, lo: nat, hi: nat) {
    && lo <= hi
    && (forall m: nat :: m in handled || m in lost <==> lo <= m < hi)
    && (forall m | m in handled :: m !in lost)
  }

  lemma SplitsMore(handled: seq<nat>, lost: seq<nat>, lo: nat, mid: nat, x: nat, hi: nat)
    requires Splits(handled, lost, lo, mid) && mid <= x <= hi
    ensures Splits(handled + Range(mid, x), lost + Range(x, hi), lo, hi)
  {
    RangeHas(mid, x);
    RangeHas(x, hi);
    hide Range;
    var h, l := handled + Range(mid, x), lost + Range(x, hi);
    forall m: nat ensures m in h || m in l <==> lo <= m < hi { }
  }

  /** No life leaves the cell behind: whenever one begins to handle the messages of a turn, that turn or a
      later one writes a cursor. */
  ghost predicate AllSaved(stored: string, lives: seq<Life>) {
    forall k: nat | k < |lives| :: !UnsavedSince(CellAfter(stored, lives[..k]), lives[k])
  }

  lemma SavedStartsClear(pos: string -> nat, stored: string, lives: seq<Life>)
    requires HonestLives(pos, stored, lives) && AllSaved(stored, lives)
    ensures StartsClear(pos, stored, lives)
    ensures forall j: nat | j < |lives| :: Reached(pos, stored, lives, j) <= pos(CellAfter(stored, lives[..j + 1]))
  {
    forall j: nat | j < |lives| ensures Reached(pos, stored, lives, j) <= pos(CellAfter(stored, lives[..j + 1])) {
      assert lives[..j + 1][..j] == lives[..j];
      assert CellAfter(stored, lives[..j + 1]) == StoredAfter(CellAfter(stored, lives[..j]), TraceIn(stored, lives, j));
      LeftBehindIff(pos, CellAfter(stored, lives[..j]), lives[j]);
    }
    hide CellAfter, TraceIn, Reached, HandledIn, HonestLives;
    forall j: nat, k: nat | j < k < |lives|
      ensures Reached(pos, stored, lives, j) <= pos(CellAfter(stored, lives[..k]))
    {
      CellsAscend(pos, stored, lives, j + 1, k);
    }
  }

  lemma SavedPrefix(stored: string, lives: seq<Life>)
    requires AllSaved(stored, lives) && lives != []
    ensures AllSaved(stored, lives[..|lives| - 1])
  {
    hide CellAfter, UnsavedSince;
    var n := |lives| - 1;
    forall k: nat | k < n ensures !UnsavedSince(CellAfter(stored, lives[..n][..k]), lives[..n][k]) {
      assert lives[..n][..k] == lives[..k];
    }
  }

  lemma {:induction false} HandledOrLost(pos: string -> nat, stored: string, lives: seq<Life>)
    requires HonestLives(pos, stored, lives) && AllSaved(stored, lives)
    ensures Splits(AllHandled(stored, lives), AllLost(pos, stored, lives), pos(stored), pos(CellAfter(stored, lives)))
  {
    if lives == [] {
      assert Splits([], [], pos(stored), pos(stored));
    } else {
      var n := |lives| - 1;
      LivesPrefix(pos, stored, lives);
      SavedPrefix(stored, lives);
      HandledOrLost(pos, stored, lives[..n]);
      SavedStartsClear(pos, stored, lives);
      assert lives[..n + 1] == lives;
      LifeIn(pos, stored, lives, n);
      var cell := CellAfter(stored, lives[..n]);
      hide HonestLives, HonestScript, Splits, HandledIn, TraceOf, StoredAfter, AllSaved;
      SplitsMore(AllHandled(stored, lives[..n]), AllLost(pos, stored, lives[..n]), pos(stored), pos(cell),
                 Reached(pos, stored, lives, n), pos(CellAfter(stored, lives)));
    }
  }

  /** With crashes after any action and restarts from the stored cursor, as long as every batch a life begins
      to handle is followed by a cursor it writes: no message is handled twice, messages are handled in log
      order, and up to the last cursor the messages never handled are exactly those the lives lost. */
  lemma AtMostOnce(pos: string -> nat, stored: string, lives: seq<Life>)
    requires HonestLives(pos, stored, lives) && AllSaved(stored, lives)
    ensures Once(AllHandled(stored, lives)) && Ascending(AllHandled(stored, lives))
    ensures Splits(AllHandled(stored, lives), AllLost(pos, stored, lives), pos(stored), pos(CellAfter(stored, lives)))
  {
    SavedStartsClear(pos, stored, lives);
    AtMostOnceIff(pos, stored, lives);
    HandledOrLost(pos, stored, lives);
  }

  /** The disk takes every cursor. */
  ghost predicate WorkingDisk(script: seq<Turn>) {
    forall t | t in script :: t.saved
  }

  /** A disk that takes every cursor is enough, since each is stored before its batch is handled. */
  lemma WorkingDiskSaves(pos: string -> nat, stored: string, l: Life)
    requires HonestScript(pos, Start(l.start, stored), l.script) && WorkingDisk(l.script)
    ensures !UnsavedSince(stored, l)
  {
    forall k: nat | k < |l.script| && Began(stored, l, k) ensures Wrote(stored, l, k) {
      var s := TurnState(stored, l, k);
      assert Honest(pos, s.buf, l.script[k].answer);
      hide Run;
      assert l.script[k] in l.script;
    }
  }

  /** Without crashes nothing is lost either: one life that runs its whole script handles every message
      between the cursor it began with and the one it ends with. */
  lemma NothingLostWithoutCrash(pos: string -> nat, stored: string, l: Life)
    requires HonestScript(pos, Start(l.start, stored), l.script) && !UnsavedSince(stored, l)
    requires l.cut >= |Run(Start(l.start, stored), l.script).trace|
    ensures var trace := TraceOf(stored, l); var end := StoredAfter(stored, trace);
      pos(stored) <= pos(end) && HandledIn(trace) == Range(pos(stored), pos(end)) && LostIn(pos, stored, l) == []
  {
    LeftBehindIff(pos, stored, l);
    SessionCovered(pos, l.start, stored, l.script);
    var full := Run(Start(l.start, stored), l.script).trace;
    LastPrefix(pos, stored, full);
    assert full[..|full|] == full;
    hide Run, CoveredThroughout, HandledIn, StoredAfter, StoredBefore, HonestScript, UnsavedSince;
    assert TraceOf(stored, l) == full;
  }

  /** An input on which the condition fails: the cursor of the only batch cannot be written, the process stops
      before it writes another, and after the restart the batch is handled again. */
  lemma FailedWriteRepeats(pos: string -> nat, stored: string, start: nat, again: nat, t: Turn, m: nat, cursor: string)
    requires t.answer == Replied(0, 0, [m], cursor, 0) && cursor != "" && !t.saved
    requires pos(stored) == m && pos(cursor) == m + 1
    ensures Honest(pos, stored, t.answer)
    ensures AllHandled(stored, [Life(start, [t], 2), Life(again, [t], 2)]) == [m, m]
  {
    var a, b := Life(start, [t], 2), Life(again, [t], 2);
    UnsavedTurn(stored, start, t, m, cursor);
    UnsavedTurn(stored, again, t, m, cursor);
    assert [a, b][..1] == [a] && [a][..0] == [];
    hide TraceOf, HandledIn, StoredAfter;
    assert AllHandled(stored, [a]) == [] + [m];
    assert CellAfter(stored, [a]) == stored;
  }

  lemma UnsavedTurn(stored: string, start: nat, t: Turn, m: nat, cursor: string)
    requires t.answer == Replied(0, 0, [m], cursor, 0) && cursor != "" && !t.saved
    ensures var trace := TraceOf(stored, Life(start, [t], 2));
      HandledIn(trace) == [m] && StoredAfter(stored, trace) == stored
  {
    var s := Start(start, stored);
    OneTurn(s, t);
    var poll := Polled(PollTime(s, t.pauseOver), s.buf, s.timeout);
    assert Step(s, t).trace == [poll] + [Handled(m)];
    hide Run, Step;
    AppendHandled([], poll);
    AppendHandled([] + [poll], Handled(m));
    AppendStored(stored, [], poll);
    AppendStored(stored, [] + [poll], Handled(m));
    assert [] + [poll] + [Handled(m)] == [poll] + [Handled(m)];
    assert TraceOf(stored, Life(start, [t], 2)) == [poll] + [Handled(m)];
  }

  /** The cursor is what keeps messages from being handled again: a gateway that delivers a message with an
      empty cursor gets it handled once per poll. */
  lemma EmptyCursorRepeats(s: State, t: Turn, m: nat)
    requires t.answer == Replied(0, 0, [m], "", 0)
    ensures HandledIn(Step(Step(s, t), t).trace) == HandledIn(s.trace) + [m, m]
  {
    hide Step, HandledIn;
    EmptyCursorHandles(s, t, m);
    EmptyCursorHandles(Step(s, t), t, m);
    assert HandledIn(s.trace) + [m] + [m] == HandledIn(s.trace) + [m, m];
  }

  lemma EmptyCursorHandles(s: State, t: Turn, m: nat)
    requires t.answer == Replied(0, 0, [m], "", 0)
    ensures HandledIn(Step(s, t).trace) == HandledIn(s.trace) + [m]
  {
    hide HandledIn;
    var poll := Polled(PollTime(s, t.pauseOver), s.buf, s.timeout);
    AppendHandled(s.trace, poll);
    AppendHandled(s.trace + [poll], Handled(m));
    assert Step(s, t).trace == s.trace + [poll] + [Handled(m)];
  }
}
