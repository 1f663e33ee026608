/** One bot's polling loop: failure counting and delays, the pause after an expired session, and the cursor
    that is stored before the messages it covers are handled.  Times in nanoseconds.  A message stands
    for its position in the gateway's log. */
module PollLoop {
  import opened Text

  const SECOND := 1_000_000_000
  const LONG_POLL := 35 * SECOND
  const MAX_FAILURES := 3
  const BACKOFF := 30 * SECOND
  const RETRY := 2 * SECOND
  const PAUSE := 3600 * SECOND
  const MILLISECOND := 1_000_000
  const SESSION_EXPIRED := -14

  /** What a poll met: an error, a timeout of the long poll, or an answer of the gateway. */
  datatype Answer =
    | Failed
    | TimedOut
    | Replied(ret: int, errcode: int, msgs: seq<nat>, cursor: string, timeoutMs: int)

  /** One poll with how long it took, how much longer than asked the sleeps around it last, and whether a
      cursor can be written to disk then. */
  datatype Turn = Turn(answer: Answer, took: nat, pauseOver: nat, sleepOver: nat, saved: bool)

  datatype Action = Polled(at: nat, cursor: string, timeout: nat) | Stored(cursor: string) | Handled(msg: nat)

  /** The loop's variables, the counts of failed and successful polls, and what it did so far. */
  datatype State = State(now: nat, buf: string, timeout: nat, consecutive: nat, pauseUntil: Option<nat>,
                         failures: nat, successes: nat, trace: seq<Action>)

  function Start(now: nat, stored: string): (r: State) {
    State(now, stored, LONG_POLL, 0, None, 0, 0, [])
  }

  /** A timeout of the long poll reads as an empty answer with the same cursor. */
  function Response(a: Answer, buf: string): (r: Answer) {
    if a.TimedOut? then Replied(0, 0, [], buf, 0) else a
  }

  predicate Expired(a: Answer) {
    a.Replied? && (a.errcode == SESSION_EXPIRED || a.ret == SESSION_EXPIRED)
  }

  predicate Success(a: Answer) {
    a.Replied? && a.ret == 0 && a.errcode == 0
  }

  /** When the next poll can start: not before a pause that was set is over. */
  function PollTime(s: State, over: nat): (r: nat) {
    if s.pauseUntil.Some? && s.now < s.pauseUntil.value then s.pauseUntil.value + over else s.now
  }

  function HandledAll(msgs: seq<nat>): (r: seq<Action>)
    ensures |r| == |msgs| && forall i | 0 <= i < |r| :: r[i] == Handled(msgs[i])
  {
    seq(|msgs|, i requires 0 <= i < |msgs| => Handled(msgs[i]))
  }

  /** One turn of the loop. */
  function Step(s: State, t: Turn): (r: State) {
    var at := PollTime(s, t.pauseOver);
    var s1 := s.(now := at + t.took, pauseUntil := None, trace := s.trace + [Polled(at, s.buf, s.timeout)]);
    var a := Response(t.answer, s.buf);
    if Success(a) then
      s1.(consecutive := 0, successes := s.successes + 1,
          timeout := if a.timeoutMs > 0 then a.timeoutMs * MILLISECOND else s.timeout,
          buf := if a.cursor != "" then a.cursor else s.buf,
          trace := s1.trace + (if a.cursor != "" && t.saved then [Stored(a.cursor)] else []) + HandledAll(a.msgs))
    else if Expired(a) then
      s1.(consecutive := 0, pauseUntil := Some(s1.now + PAUSE))
    else
      var n := s.consecutive + 1;
      s1.(failures := s.failures + 1,
          consecutive := if n >= MAX_FAILURES then 0 else n,
          now := s1.now + (if n >= MAX_FAILURES then BACKOFF else RETRY) + t.sleepOver)
  }

  /** When a turn polls, and what a turn does with each kind of answer, in plain terms. */
  lemma PollsWhen(s: State, over: nat)
    ensures s.pauseUntil == None ==> PollTime(s, over) == s.now
    ensures s.pauseUntil.Some? && s.pauseUntil.value <= s.now ==> PollTime(s, over) == s.now
    ensures s.pauseUntil.Some? && s.now < s.pauseUntil.value ==> PollTime(s, over) == s.pauseUntil.value + over
  {
  }

  /** A session starts with the stored cursor and a long poll of 35 seconds. */
  lemma StartsWith(now: nat, stored: string, over: nat)
    ensures var s := Start(now, stored);
      PollTime(s, over) == now && s.buf == stored && s.timeout == 35_000_000_000 && s.consecutive == 0 && s.trace == []
  {
  }

  /** A good answer: its cursor, if it has one, is stored (when the disk takes it) and then polled with, its
      timeout, if it has one, is used from then on, its messages are handled, and the next poll follows at
      once. */
  lemma GoodAnswer(s: State, t: Turn, msgs: seq<nat>, cursor: string, ms: int)
    requires t.answer == Replied(0, 0, msgs, cursor, ms)
    ensures var u, at := Step(s, t), PollTime(s, t.pauseOver);
      && u.trace == s.trace + [Polled(at, s.buf, s.timeout)]
                    + (if cursor != "" && t.saved then [Stored(cursor)] else []) + HandledAll(msgs)
      && u.buf == (if cursor != "" then cursor else s.buf)
      && u.timeout == (if ms > 0 then ms * 1_000_000 else s.timeout)
      && u.now == at + t.took && u.pauseUntil == None && u.consecutive == 0
      && u.failures == s.failures && u.successes == s.successes + 1
  {
  }

  /** A poll that timed out is a good answer without messages that leaves the cursor as it is. */
  lemma TimedOutAnswer(s: State, t: Turn)
    requires t.answer == TimedOut
    ensures Step(s, t) == Step(s, t.(answer := Replied(0, 0, [], s.buf, 0)))
  {
  }

  /** An expired session, told by either code: nothing is handled or stored, nothing counts as a failure, and
      there is an hour's pause. */
  lemma ExpiredAnswer(s: State, t: Turn)
    requires t.answer.Replied? && (t.answer.ret == -14 || t.answer.errcode == -14)
    ensures var u, at := Step(s, t), PollTime(s, t.pauseOver);
      && u.trace == s.trace + [Polled(at, s.buf, s.timeout)]
      && u.buf == s.buf && u.timeout == s.timeout && u.now == at + t.took
      && u.pauseUntil == Some(u.now + 3_600_000_000_000)
      && u.consecutive == 0 && u.failures == s.failures && u.successes == s.successes
  {
  }

  /** A failed poll or any other code: nothing is handled or stored, and the next poll follows after 2 seconds, or
      after 30 when it was the third failure in a row, which also ends the count. */
  lemma FailedAnswer(s: State, t: Turn)
    requires s.consecutive < 3
    requires || t.answer == Failed
             || (&& t.answer.Replied?
                 && (t.answer.ret != 0 || t.answer.errcode != 0)
                 && t.answer.ret != -14 && t.answer.errcode != -14)
    ensures var u, at := Step(s, t), PollTime(s, t.pauseOver);
      && u.trace == s.trace + [Polled(at, s.buf, s.timeout)]
      && u.buf == s.buf && u.timeout == s.timeout && u.pauseUntil == None
      && u.now == at + t.took + (if s.consecutive == 2 then 30_000_000_000 else 2_000_000_000) + t.sleepOver
      && u.consecutive == (if s.consecutive == 2 then 0 else s.consecutive + 1)
      && u.failures == s.failures + 1 && u.successes == s.successes
  {
  }

  function Run(s: State, script: seq<Turn>): (r: State) {
    if script == [] then s else Step(Run(s, script[..|script| - 1]), script[|script| - 1])
  }

  // ---------------------------------------------------------- the loop itself

  /** The stored cursor of one account. */
  class SyncCell {
    var stored: string

    constructor ()
      ensures stored == ""
    {
      stored := "";
    }

    /** A write that fails goes unnoticed. */
    method SaveSyncBuf(buf: string, written: bool)
      modifies this
      ensures stored == if buf == "" || !written then old(stored) else buf
    {
      if buf == "" { return; }
      if written { stored := buf; }
    }
  }

  /** Polls until the context is cancelled, which it is when the script is used up. */
  method MonitorLoop(cell: SyncCell, start: nat, script: seq<Turn>) returns (v: State)
    modifies cell
    ensures v == Run(Start(start, old(cell.stored)), script)
    ensures cell.stored == StoredAfter(old(cell.stored), v.trace)
  {
    hide Run, StoredAfter, Step, HandledAll, Response;
    v := Start(start, cell.stored);
    ghost var s0 := v;
    RunStart(s0, script, cell.stored);
    var k := 0;
    while k < |script|
      invariant 0 <= k <= |script|
      invariant if k < |script| then v == Run(s0, script[..k]) || v == Slept(Run(s0, script[..k]), script[k].pauseOver)
                else v == Run(s0, script)
      invariant cell.stored == StoredAfter(old(cell.stored), v.trace)
      decreases |script| - k, if Paused(v) then 1 else 0
    {
      if Paused(v) {
        v := v.(now := v.pauseUntil.value + script[k].pauseOver);
      } else {
        SleptStep(Run(s0, script[..k]), script[k]);
        RunSnoc(s0, script, k);
        v := TakeTurn(cell, v, script[k], old(cell.stored));
        k := k + 1;
      }
    }
  }

  lemma RunStart(s: State, script: seq<Turn>, stored: string)
    requires s.trace == []
    ensures Run(s, script[..0]) == s && (script == [] ==> Run(s, script) == s) && StoredAfter(stored, s.trace) == stored
  {
  }

  predicate Paused(s: State) {
    s.pauseUntil.Some? && s.now < s.pauseUntil.value
  }

  /** The state after sleeping through a pause. */
  function Slept(s: State, over: nat): (r: State) {
    if Paused(s) then s.(now := s.pauseUntil.value + over) else s
  }

  lemma SleptStep(s: State, t: Turn)
    ensures Step(Slept(s, t.pauseOver), t) == Step(s, t)
  {
  }

  /** One turn that starts outside any pause. */
  method TakeTurn(cell: SyncCell, s: State, t: Turn, ghost first: string) returns (v: State)
    requires !Paused(s) && cell.stored == StoredAfter(first, s.trace)
    modifies cell
    ensures v == Step(s, t)
    ensures cell.stored == StoredAfter(first, v.trace)
  {
    hide StoredAfter;
    var poll := Polled(s.now, s.buf, s.timeout);
    AppendStored(first, s.trace, poll);
    v := s.(pauseUntil := None, trace := s.trace + [poll], now := s.now + t.took);
    var a := Response(t.answer, s.buf);
    if a.Failed? || ((a.ret != 0 || a.errcode != 0) && !Expired(a)) {
      var consecutive, now := BackOff(v.consecutive, v.now, t.sleepOver);
      v := v.(failures := v.failures + 1, consecutive := consecutive, now := now);
    } else if a.ret != 0 || a.errcode != 0 {
      v := v.(pauseUntil := Some(v.now + PAUSE), consecutive := 0);
    } else {
      var buf, timeout, trace := TakeAnswer(cell, a, t.saved, v.buf, v.timeout, v.trace, first);
      v := v.(consecutive := 0, successes := v.successes + 1, buf := buf, timeout := timeout, trace := trace);
    }
  }

  /** The delay after a failure: long after the third in a row, which also clears the count. */
  method BackOff(before: nat, now: nat, over: nat) returns (consecutive: nat, after: nat)
    ensures consecutive == if before + 1 >= MAX_FAILURES then 0 else before + 1
    ensures after == now + (if before + 1 >= MAX_FAILURES then BACKOFF else RETRY) + over
  {
    consecutive := before + 1;
    if consecutive >= MAX_FAILURES {
      consecutive := 0;
      after := now + BACKOFF + over;
    } else {
      after := now + RETRY + over;
    }
  }

  /** A good answer: the cursor is saved first, then the messages are handled. */
  method TakeAnswer(cell: SyncCell, a: Answer, saved: bool, before: string, wait: nat, acts: seq<Action>,
                    ghost first: string)
    returns (buf: string, timeout: nat, trace: seq<Action>)
    requires a.Replied? && cell.stored == StoredAfter(first, acts)
    modifies cell
    ensures buf == if a.cursor != "" then a.cursor else before
    ensures timeout == if a.timeoutMs > 0 then a.timeoutMs * MILLISECOND else wait
    ensures trace == acts + (if a.cursor != "" && saved then [Stored(a.cursor)] else []) + HandledAll(a.msgs)
    ensures cell.stored == StoredAfter(first, trace)
  {
    buf, timeout, trace := before, wait, acts;
    if a.timeoutMs > 0 { timeout := a.timeoutMs * MILLISECOND; }
    if a.cursor != "" {
      cell.SaveSyncBuf(a.cursor, saved);
      AppendStored(first, trace, Stored(a.cursor));
      if saved { trace := trace + [Stored(a.cursor)]; }
      buf := a.cursor;
    }
    trace := HandleMsgs(a.msgs, trace, first);
  }

  /** The messages of a batch are handled one by one. */
  method HandleMsgs(msgs: seq<nat>, before: seq<Action>, ghost stored: string) returns (trace: seq<Action>)
    ensures trace == before + HandledAll(msgs)
    ensures StoredAfter(stored, trace) == StoredAfter(stored, before)
  {
    trace := before;
    for i := 0 to |msgs|
      invariant trace == before + HandledAll(msgs)[..i]
      invariant StoredAfter(stored, trace) == StoredAfter(stored, before)
    {
      AppendStored(stored, trace, Handled(msgs[i]));
      trace := trace + [Handled(msgs[i])];
    }
    assert HandledAll(msgs)[..|msgs|] == HandledAll(msgs);
  }

  lemma RunSnoc(s: State, script: seq<Turn>, k: nat)
    requires k < |script|
    ensures Run(s, script[..k + 1]) == Step(Run(s, script[..k]), script[k])
    ensures k + 1 == |script| ==> script[..k + 1] == script
  {
    assert script[..k + 1][..k] == script[..k];
  }

  function StoredAfter(stored: string, trace: seq<Action>): (r: string) {
    if trace == [] then stored
    else if trace[|trace| - 1].Stored? then trace[|trace| - 1].cursor
    else StoredAfter(stored, trace[..|trace| - 1])
  }

  lemma AppendStored(stored: string, trace: seq<Action>, a: Action)
    ensures StoredAfter(stored, trace + [a]) == if a.Stored? then a.cursor else StoredAfter(stored, trace)
  {
    assert (trace + [a])[..|trace|] == trace;
  }

  // ------------------------------------------------------ the polling budget

  /** With the time the next poll starts at as `at`. */
  ghost predicate WithinBudget(start: nat, s: State, at: nat) {
    34 * s.failures * SECOND <= 3 * (at - start) + 56 * SECOND * s.successes + 28 * SECOND * s.consecutive
  }

  /** One turn spends no more than it earns: a failure costs 34 and brings at least 2 seconds, the third in
      a row at least 30; giving up a count of two costs 56, which a success or a pause pays for. */
  lemma BudgetTurn(start: nat, s: State, t: Turn, over: nat)
    requires s.consecutive < MAX_FAILURES && s.now >= start && WithinBudget(start, s, PollTime(s, t.pauseOver))
    ensures var u := Step(s, t);
      u.consecutive < MAX_FAILURES && u.now >= start && WithinBudget(start, u, PollTime(u, over))
  {
    hide HandledAll;
  }

  lemma {:induction false} BudgetKept(start: nat, stored: string, script: seq<Turn>, over: nat)
    ensures var s := Run(Start(start, stored), script);
      s.consecutive < MAX_FAILURES && s.now >= start && WithinBudget(start, s, PollTime(s, over))
  {
    hide WithinBudget, Step;
    if script == [] {
      assert WithinBudget(start, Start(start, stored), PollTime(Start(start, stored), over)) by {
        StartBudget(start, stored, over);
      }
    } else {
      var init, t := script[..|script| - 1], script[|script| - 1];
      BudgetKept(start, stored, init, t.pauseOver);
      BudgetTurn(start, Run(Start(start, stored), init), t, over);
    }
  }

  lemma StartBudget(start: nat, stored: string, over: nat)
    ensures WithinBudget(start, Start(start, stored), PollTime(Start(start, stored), over))
  {
  }

  /** The polls that failed, and those with a good answer; an expired session counts as neither. */
  function Failures(script: seq<Turn>): (n: nat) {
    if script == [] then 0
    else
      var a := script[|script| - 1].answer;
      Failures(script[..|script| - 1])
      + if || a == Failed
           || (a.Replied? && (a.ret != 0 || a.errcode != 0) && a.ret != -14 && a.errcode != -14) then 1 else 0
  }

  function Successes(script: seq<Turn>): (n: nat) {
    if script == [] then 0
    else
      var a := script[|script| - 1].answer;
      Successes(script[..|script| - 1]) + if a == TimedOut || (a.Replied? && a.ret == 0 && a.errcode == 0) then 1 else 0
  }

  lemma {:induction false} CountsAreOfScript(start: nat, stored: string, script: seq<Turn>)
    ensures var s := Run(Start(start, stored), script);
      s.failures == Failures(script) && s.successes == Successes(script)
  {
    hide PollTime, HandledAll;
    if script != [] { CountsAreOfScript(start, stored, script[..|script| - 1]); }
  }

  /** At the start of every poll of every run: with f failed and s successful polls so far and e seconds
      gone by, 34 f is at most 3 e + 56 (s + 1); and fewer than three failures are on the count. */
  lemma PollingIsBounded(start: nat, stored: string, script: seq<Turn>, next: Turn)
    ensures var s := Run(Start(start, stored), script); var at := PollTime(s, next.pauseOver);
      && 34 * Failures(script) * 1_000_000_000 <= 3 * (at - start) + 56 * 1_000_000_000 * (Successes(script) + 1)
      && s.consecutive < 3
      && PollsAt(s, next, at)
  {
    hide Run, PollTime, Start, Failures, Successes;
    BudgetKept(start, stored, script, next.pauseOver);
    CountsAreOfScript(start, stored, script);
  }

  /** What the next turn does first is poll at time `at`. */
  predicate PollsAt(s: State, next: Turn, at: nat) {
    s.trace + [Polled(at, s.buf, s.timeout)] <= Step(s, next).trace
  }

  /** From now on no poll starts before `t`. */
  predicate QuietUntil(s: State, t: nat) {
    PollTime(s, 0) >= t
  }

  lemma QuietStep(s: State, turn: Turn, t: nat)
    requires QuietUntil(s, t)
    ensures QuietUntil(Step(s, turn), t) && s.trace <= Step(s, turn).trace
    ensures forall i | |s.trace| <= i < |Step(s, turn).trace| && Step(s, turn).trace[i].Polled? ::
      Step(s, turn).trace[i].at >= t
  {
  }

  lemma {:induction false} QuietRun(s: State, script: seq<Turn>, t: nat)
    requires QuietUntil(s, t)
    ensures QuietUntil(Run(s, script), t) && s.trace <= Run(s, script).trace
    ensures forall i | |s.trace| <= i < |Run(s, script).trace| && Run(s, script).trace[i].Polled? ::
      Run(s, script).trace[i].at >= t
  {
    hide QuietUntil, Step;
    if script != [] {
      var init, last := script[..|script| - 1], script[|script| - 1];
      QuietRun(s, init, t);
      QuietStep(Run(s, init), last, t);
    }
  }

  lemma {:induction false} RunConcat(s: State, a: seq<Turn>, b: seq<Turn>)
    ensures Run(s, a + b) == Run(Run(s, a), b)
  {
    hide Step;
    if b == [] {
      assert a + b == a;
    } else {
      assert (a + b)[..|a + b| - 1] == a + b[..|b| - 1];
      RunConcat(s, a, b[..|b| - 1]);
    }
  }

  /** In every run, no poll after an answer that the session expired starts within an hour of it. */
  lemma PauseIsKept(s: State, before: seq<Turn>, expired: Turn, after: seq<Turn>)
    requires expired.answer.Replied? && (expired.answer.ret == -14 || expired.answer.errcode == -14)
    ensures var u := Step(Run(s, before), expired); var end := Run(s, before + [expired] + after).trace;
      && u.trace <= end
      && u.now == PollTime(Run(s, before), expired.pauseOver) + expired.took
      && forall i | |u.trace| <= i < |end| && end[i].Polled? :: end[i].at >= u.now + 3_600_000_000_000
  {
    var v := Run(s, before);
    var u := Step(v, expired);
    assert QuietUntil(u, u.now + PAUSE);
    hide Step, QuietUntil, Run;
    assert Run(v, [expired]) == u by { OneTurn(v, expired); }
    RunConcat(s, before, [expired]);
    RunConcat(s, before + [expired], after);
    QuietRun(u, after, u.now + PAUSE);
  }

  lemma OneTurn(s: State, t: Turn)
    ensures Run(s, [t]) == Step(s, t)
  {
    assert [t][..0] == [];
  }
}
