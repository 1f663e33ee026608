/** Which messages are dropped as duplicates, over whole runs of several bots that share one deduplicator. */
module Duplicates {
  import opened Text
  import opened Routing
  import opened PlainText
  import opened Dedup
  import opened Bridge
  import Provenance
  import Rendezvous

  // ---------------------------------------------------------------- duplicates

  /** The calls a run makes to the deduplicator; events that make none stand for empty ids. */
  function Calls(u: Setup, es: seq<Event>): (r: seq<Call>)
    ensures |r| == |es| && forall k | 0 <= k < |es| :: r[k] == DedupCall(u, es[k])
  {
    seq(|es|, k requires 0 <= k < |es| => DedupCall(u, es[k]))
  }

  lemma SeenStep(u: Setup, s: State, e: Event)
    requires Shape(u, s) && Enabled(u, s, e)
    ensures Step(u, s, e).seen == Judge(s.seen, u.ttl, DedupCall(u, e)).0
  {
    hide TrimSpace, Direct, GoesOn, ScopedKey, MessageKey, ToolTarget, RouteOf, Plain, Outgoing;
    hide Waiting, MayRun, JobOf, Approvals;
  }

  lemma {:induction false} SeenIsRun(u: Setup, es: seq<Event>)
    requires IsRun(u, es)
    ensures After(u, es).seen == Dedup.Run(u.ttl, Calls(u, es)).0
  {
    hide Step, DedupCall, Judge, Enabled;
    if es != [] {
      var n := |es| - 1;
      SeenIsRun(u, es[..n]);
      assert Calls(u, es)[..n] == Calls(u, es[..n]);
      SeenStep(u, After(u, es[..n]), es[n]);
    }
  }

  /** The k-th event of a run was a private message that went past the deduplicator. */
  ghost predicate PassedDedup(u: Setup, es: seq<Event>, k: nat)
    requires IsRun(u, es) && k < |es|
  {
    PrefixIsRun(u, es, k);
    es[k].Arrive? && Direct(es[k].msg) && !Dropped(u, After(u, es[..k]), es[k])
  }

  /** The last answer of a run of the deduplicator is its judgement of the last call. */
  lemma LastJudged(ttl: int, calls: seq<Call>)
    requires calls != []
    ensures var n := |calls| - 1;
      Dedup.Run(ttl, calls).1[n] == Judge(Dedup.Run(ttl, calls[..n]).0, ttl, calls[n]).1
  {
  }

  /** The answers of the deduplicator in a run are those to the calls of the run. */
  lemma DroppedIsAnswer(u: Setup, es: seq<Event>, k: nat)
    requires IsRun(u, es) && k < |es|
    ensures IsRun(u, es[..k])
    ensures Dropped(u, After(u, es[..k]), es[k]) == Dedup.Run(u.ttl, Calls(u, es)).1[k]
  {
    hide DedupCall, After, IsRun, Judge, Dedup.Run, Calls;
    PrefixIsRun(u, es, k);
    SeenIsRun(u, es[..k]);
    var upto := Calls(u, es)[..k + 1];
    assert upto[..k] == Calls(u, es[..k]);
    AnswersStay(u.ttl, Calls(u, es), k + 1);
    LastJudged(u.ttl, upto);
  }

  predicate SameMessage(a: Event, b: Event)
    requires a.Arrive? && b.Arrive?
  {
    a.bot == b.bot && MessageKey(a.msg.messageID, a.msg.seqNo) == MessageKey(b.msg.messageID, b.msg.seqNo)
  }

  /** A private message that carries an id. */
  predicate Keyed(e: Event) {
    e.Arrive? && Direct(e.msg) && MessageKey(e.msg.messageID, e.msg.seqNo) != ""
  }

  lemma SameCallIffSameMessage(u: Setup, a: Event, b: Event)
    requires ValidSetup(u) && Keyed(a) && a.bot < |u.labels| && (b.Arrive? ==> b.bot < |u.labels|)
    ensures DedupCall(u, a).id != ""
    ensures DedupCall(u, a).id == DedupCall(u, b).id <==> b.Arrive? && Direct(b.msg) && SameMessage(b, a)
  {
    hide TrimSpace, Direct, MessageKey;
    if b.Arrive? && Direct(b.msg) && MessageKey(b.msg.messageID, b.msg.seqNo) != "" {
      ScopedKeyInjective(u.labels, a.bot, MessageKey(a.msg.messageID, a.msg.seqNo),
                         b.bot, MessageKey(b.msg.messageID, b.msg.seqNo));
    }
  }

  lemma CallTime(u: Setup, e: Event)
    ensures DedupCall(u, e).id != "" ==> e.Arrive? && DedupCall(u, e).now == e.now
  {
  }

  lemma RunBots(u: Setup, es: seq<Event>, k: nat)
    requires IsRun(u, es) && k < |es| && es[k].Arrive?
    ensures es[k].bot < |u.labels|
  {
    hide After;
    PrefixIsRun(u, es, k);
  }

  lemma PassedIsAnswer(u: Setup, es: seq<Event>, k: nat)
    requires IsRun(u, es) && k < |es|
    ensures PassedDedup(u, es, k) <==> es[k].Arrive? && Direct(es[k].msg) && !Dedup.Run(u.ttl, Calls(u, es)).1[k]
  {
    hide Direct, DedupCall, After, Dropped, Dedup.Run, IsRun;
    DroppedIsAnswer(u, es, k);
  }

  lemma PassedIffAccepted(u: Setup, es: seq<Event>, i: nat, k: nat)
    requires ValidSetup(u) && IsRun(u, es) && i < |es| && k < |es| && Keyed(es[k])
    ensures Calls(u, es)[k].id != ""
    ensures AcceptedAt(u.ttl, Calls(u, es), i) && Calls(u, es)[i].id == Calls(u, es)[k].id <==>
      PassedDedup(u, es, i) && es[i].Arrive? && SameMessage(es[i], es[k])
    ensures Calls(u, es)[i].id == Calls(u, es)[k].id ==> es[i].Arrive? && Calls(u, es)[i].now == es[i].now
  {
    hide TrimSpace, Direct, MessageKey, DedupCall, After, Dropped, Dedup.Run, SameMessage, IsRun, PassedDedup, Keyed;
    PassedIsAnswer(u, es, i);
    assert es[k].Arrive? && Direct(es[k].msg) by { KeyedIsDirect(es[k]); }
    RunBots(u, es, k);
    if es[i].Arrive? { RunBots(u, es, i); }
    SameCallIffSameMessage(u, es[k], es[i]);
    CallTime(u, es[i]);
  }

  lemma KeyedIsDirect(e: Event)
    requires Keyed(e)
    ensures e.Arrive? && Direct(e.msg)
  {
  }

  /** Message k is dropped exactly when its bot let the same message through less than ttl before. */
  ghost predicate DroppedOnlyIfRepeated(u: Setup, es: seq<Event>, k: nat)
    requires IsRun(u, es) && k < |es| && es[k].Arrive?
  {
    !PassedDedup(u, es, k) <==>
      exists i: nat :: i < k && PassedDedup(u, es, i) && SameMessage(es[i], es[k]) && es[k].now - es[i].now < u.ttl
  }

  /** In every run with a steady clock a private message with an id is dropped as a duplicate exactly when
      the same bot let a message with the same id through less than ttl before; other bots' messages never
      matter. */
  lemma DroppedIffRepeated(u: Setup, es: seq<Event>, k: nat)
    requires ValidSetup(u) && u.ttl > 0 && IsRun(u, es) && Steady(u.ttl, Calls(u, es))
    requires k < |es| && Keyed(es[k])
    ensures DroppedOnlyIfRepeated(u, es, k)
  {
    KeyedIsDirect(es[k]);
    hide TrimSpace, Direct, MessageKey, DedupCall, After, Dropped, Dedup.Run, SameMessage, IsRun, AcceptedAt;
    hide PassedDedup, Keyed, Steady;
    var calls := Calls(u, es);
    PassedIffAccepted(u, es, k, k);
    DuplicateIff(u.ttl, calls, k);
    PassedIsAnswer(u, es, k);
    forall i: nat | i <= k
      ensures AcceptedAt(u.ttl, calls, i) && calls[i].id == calls[k].id <==>
        PassedDedup(u, es, i) && es[i].Arrive? && SameMessage(es[i], es[k])
      ensures calls[i].id == calls[k].id ==> es[i].Arrive? && calls[i].now == es[i].now
      ensures PassedDedup(u, es, i) ==> es[i].Arrive?
    {
      PassedIsAnswer(u, es, i);
      PassedIffAccepted(u, es, i, k);
    }
  }

  /** A message without an id is never dropped. */
  lemma NoIdNeverDropped(u: Setup, es: seq<Event>, k: nat)
    requires IsRun(u, es) && k < |es| && es[k].Arrive? && es[k].msg.messageID == 0 && es[k].msg.seqNo == 0
    ensures PassedDedup(u, es, k) <==> Direct(es[k].msg)
  {
    PrefixIsRun(u, es, k);
    hide IsRun, After, Direct;
  }

  // ------------------------------------- how far back the clock may go between bots

  /** A private message without text, with its own id. */
  function FloodMessage(k: nat): (m: Message) {
    Message("", 1, "x", "", "", "", k + 1, 0, "", false)
  }

  /** Message 0 at the first bot, the others at the last. */
  function FloodBot(u: Setup, k: nat): (bot: nat)
    requires ValidSetup(u)
    ensures bot < |u.labels|
  {
    if k == 0 then 0 else |u.labels| - 1
  }

  function FloodId(u: Setup, k: nat): (id: string)
    requires ValidSetup(u)
  {
    ScopedKey(u.labels[FloodBot(u, k)], MessageKey(k + 1, 0), |u.labels| > 1)
  }

  /** Message 0 comes again after 5000 others, which the last bot saw two units later. */
  function FloodEvents(u: Setup): (es: seq<Event>)
    requires ValidSetup(u)
    ensures |es| == PRUNE_ABOVE + 2
  {
    seq(PRUNE_ABOVE + 1, k requires 0 <= k => Arrive(if k == 0 then 0 else u.ttl + 1, FloodBot(u, k), FloodMessage(k)))
    + [Arrive(u.ttl - 1, 0, FloodMessage(0))]
  }

  lemma FloodIsDirect(k: nat)
    ensures Direct(FloodMessage(k)) && MessageKey(k + 1, 0) != ""
  {
    assert TrimSpace("x") == "x" && TrimSpace("") == "";
    assert MessageKey(k + 1, 0)[0] == 'm';
  }

  lemma FloodIdsDiffer(u: Setup)
    requires ValidSetup(u)
    ensures Distinct((k: nat) => FloodId(u, k), PRUNE_ABOVE)
  {
    hide MessageKey, ScopedKey;
    var ids := (k: nat) => FloodId(u, k);
    forall i: nat | i <= PRUNE_ABOVE ensures ids(i) != "" {
      FloodIsDirect(i);
      ScopedKeyNotEmpty(u.labels[FloodBot(u, i)], MessageKey(i + 1, 0), |u.labels| > 1);
    }
    forall i: nat, j: nat | i < j <= PRUNE_ABOVE ensures ids(i) != ids(j) {
      FloodIsDirect(i);
      FloodIsDirect(j);
      ScopedKeyInjective(u.labels, FloodBot(u, i), MessageKey(i + 1, 0), FloodBot(u, j), MessageKey(j + 1, 0));
      if MessageKey(i + 1, 0) == MessageKey(j + 1, 0) { MessageKeyInjective(i + 1, 0, j + 1, 0); }
    }
  }

  lemma ScopedKeyNotEmpty(botLabel: string, raw: string, multi: bool)
    requires raw != ""
    ensures ScopedKey(botLabel, raw, multi) != ""
  {
  }

  lemma FloodCalls(u: Setup)
    requires ValidSetup(u) && u.ttl > 0
    ensures Calls(u, FloodEvents(u)) == Forgetful((k: nat) => FloodId(u, k), u.ttl)
  {
    hide MessageKey, ScopedKey, Direct;
    var ids := (k: nat) => FloodId(u, k);
    var es, calls := FloodEvents(u), Forgetful(ids, u.ttl);
    FloodTimes(ids, u.ttl, PRUNE_ABOVE);
    forall k: nat | k < |es| ensures DedupCall(u, es[k]) == calls[k] {
      FloodIsDirect(k);
      FloodIsDirect(0);
    }
  }

  /** Messages without text or reference only pass through. */
  lemma {:induction false} QuietRun(u: Setup, es: seq<Event>)
    requires forall k | 0 <= k < |es| ::
      es[k].Arrive? && es[k].bot < |u.labels| && es[k].msg.body == "" && !es[k].msg.hasRef
    ensures IsRun(u, es) && After(u, es).handling == map[] && After(u, es).approvals == Rendezvous.INIT
  {
    if es != [] {
      var n := |es| - 1;
      QuietRun(u, es[..n]);
      Provenance.EmptyIsBlank();
      QuietStep(u, After(u, es[..n]), es[n]);
    }
  }

  lemma QuietStep(u: Setup, s: State, e: Event)
    requires Shape(u, s) && Enabled(u, s, e) && e.Arrive? && Blank(e.msg.body) && !e.msg.hasRef
    ensures Step(u, s, e).handling == s.handling && Step(u, s, e).approvals == s.approvals
  {
    hide TrimSpace, Judge, DedupCall, Rendezvous.Step;
  }

  lemma FirstPasses(ttl: int, calls: seq<Call>)
    requires calls != []
    ensures !Dedup.Run(ttl, calls).1[0]
  {
    AnswersStay(ttl, calls, 1);
    assert calls[..1][..0] == [];
  }

  /** In this run the repeated message is let through. */
  lemma FloodRepeats(u: Setup)
    requires ValidSetup(u) && u.ttl > 0
    ensures var es := FloodEvents(u);
      && IsRun(u, es) && SlipsAtMost(Calls(u, es), 2)
      && Keyed(es[PRUNE_ABOVE + 1]) && !DroppedOnlyIfRepeated(u, es, PRUNE_ABOVE + 1)
  {
    var es, ids := FloodEvents(u), (k: nat) => FloodId(u, k);
    QuietRun(u, es);
    FloodCalls(u);
    FloodIdsDiffer(u);
    FloodForgets(ids, u.ttl);
    ForgetfulSlips(ids, u.ttl);
    FloodIsDirect(0);
    FirstPasses(u.ttl, Calls(u, es));
    PassedIsAnswer(u, es, 0);
    PassedIsAnswer(u, es, PRUNE_ABOVE + 1);
    hide FloodId, Forgetful, IsRun, After, Dedup.Run, Direct, MessageKey, Calls, PassedDedup;
    assert es[0] == Arrive(0, 0, FloodMessage(0)) && es[PRUNE_ABOVE + 1] == Arrive(u.ttl - 1, 0, FloodMessage(0));
    assert PassedDedup(u, es, 0) && PassedDedup(u, es, PRUNE_ABOVE + 1);
    assert SameMessage(es[0], es[PRUNE_ABOVE + 1]);
  }

  /** The loops of several bots share the deduplicator and read the clock before they lock it.  Over all
      runs of at most `n` events in which the clock goes back by at most `d` units from one deduplicated
      message to a later one, duplicates are judged per bot and message exactly when `d` is at most 1 or `n`
      at most 5001. */
  lemma DropThreshold(u: Setup, d: nat, n: nat)
    requires ValidSetup(u) && u.ttl > 0
    ensures (forall es, k: nat |
               IsRun(u, es) && SlipsAtMost(Calls(u, es), d) && |es| <= n && k < |es| && Keyed(es[k]) ::
               DroppedOnlyIfRepeated(u, es, k))
       <==> d <= 1 || n <= 5001
  {
    hide IsRun, Keyed, DroppedOnlyIfRepeated, Calls, Steady, SlipsAtMost;
    forall e | Keyed(e) ensures e.Arrive? { KeyedIsDirect(e); }
    if d <= 1 || n <= PRUNE_ABOVE + 1 {
      forall es, k: nat | IsRun(u, es) && SlipsAtMost(Calls(u, es), d) && |es| <= n && k < |es| && Keyed(es[k])
        ensures DroppedOnlyIfRepeated(u, es, k)
      {
        assert |Calls(u, es)| == |es| by { CallsLength(u, es); }
        if d <= 1 { SlipsLess(Calls(u, es), d, 1); }
        SteadyWhen(u.ttl, Calls(u, es));
        DroppedIffRepeated(u, es, k);
      }
    } else {
      FloodRepeats(u);
      SlipsLess(Calls(u, FloodEvents(u)), 2, d);
    }
  }

  lemma CallsLength(u: Setup, es: seq<Event>)
    ensures |Calls(u, es)| == |es|
  {
  }

  lemma SlipsLess(calls: seq<Call>, a: nat, b: nat)
    requires a <= b && SlipsAtMost(calls, a)
    ensures SlipsAtMost(calls, b)
  {
  }
}
