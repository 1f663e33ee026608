/** Where jobs and answers to approvals come from: over all interleavings of loops, worker, tools and
    approvals a message is heard by a waiting approval of its own chat or becomes a job, never both. */
module Jobs {
  import opened Text
  import opened Routing
  import opened ApprovalParser
  import opened PlainText
  import opened Dedup
  import opened Bridge
  import opened Duplicates
  import Provenance
  import Rendezvous

  // ------------------------------------------------- the approvals within a run

  /** The steps of the approvals that the events of a run are. */
  ghost function ApprovalRun(u: Setup, es: seq<Event>): (r: seq<Rendezvous.Event>)
    requires IsRun(u, es)
  {
    if es == [] then []
    else
      var before := es[..|es| - 1];
      match ApprovalStep(u, After(u, before), es[|es| - 1])
      case None => ApprovalRun(u, before)
      case Some(step) => ApprovalRun(u, before) + [step]
  }

  lemma RunSnoc(labels: seq<string>, es: seq<Rendezvous.Event>, e: Rendezvous.Event)
    requires Rendezvous.IsRun(labels, es) && Rendezvous.Enabled(labels, Rendezvous.After(labels, es), e)
    ensures Rendezvous.IsRun(labels, es + [e])
    ensures Rendezvous.After(labels, es + [e]) == Rendezvous.Step(labels, Rendezvous.After(labels, es), e)
  {
    assert (es + [e])[..|es|] == es;
  }

  lemma StepApprovals(u: Setup, s: State, e: Event)
    requires Shape(u, s) && Enabled(u, s, e)
    ensures Step(u, s, e).approvals == Approvals(u, s, e)
  {
    hide Act, Approvals;
  }

  /** Within a run of the bridge the approvals make a run of their own, so all their laws hold there. */
  lemma {:induction false} ApprovalsAreRun(u: Setup, es: seq<Event>)
    requires IsRun(u, es)
    ensures Rendezvous.IsRun(u.labels, ApprovalRun(u, es))
    ensures Rendezvous.After(u.labels, ApprovalRun(u, es)) == After(u, es).approvals
  {
    hide Step, Enabled, ApprovalStep, Rendezvous.Step, Rendezvous.Enabled;
    if es != [] {
      var n := |es| - 1;
      ApprovalsAreRun(u, es[..n]);
      var s, e := After(u, es[..n]), es[n];
      StepApprovals(u, s, e);
      var r := ApprovalStep(u, s, e);
      if r.Some? { RunSnoc(u.labels, ApprovalRun(u, es[..n]), r.value); }
    }
  }

  /** A wait for this chat has been registered and has not returned. */
  ghost predicate PendingFor(s: State, bot: nat, m: Message) {
    exists w :: 0 <= w < |s.approvals.waits| && IsFor(s, w, bot, m)
  }

  predicate IsFor(s: State, w: nat, bot: nat, m: Message)
    requires w < |s.approvals.waits|
  {
    var x := s.approvals.waits[w];
    Rendezvous.Active(x) && x.bot == bot && TrimSpace(x.peer) == TrimSpace(m.fromUserID)
  }

  lemma TableIsPending(labels: seq<string>, s: Rendezvous.State, bot: nat, peer: string)
    requires AcceptedLabels(labels) && Rendezvous.TableOk(labels, s) && bot < |labels|
    ensures WaitKey(labels[bot], peer) in s.table <==>
      exists w :: 0 <= w < |s.waits| && Rendezvous.Active(s.waits[w]) && s.waits[w].bot == bot
        && TrimSpace(s.waits[w].peer) == TrimSpace(peer)
    ensures WaitKey(labels[bot], peer) in s.table ==>
      var w := s.table[WaitKey(labels[bot], peer)];
      && w < |s.waits| && Rendezvous.Active(s.waits[w])
      && s.waits[w].bot == bot && TrimSpace(s.waits[w].peer) == TrimSpace(peer)
  {
    hide TrimSpace, WaitKey, AcceptedLabels;
    var k := WaitKey(labels[bot], peer);
    if k in s.table {
      var x := s.waits[s.table[k]];
      WaitKeyInjective(labels, bot, peer, x.bot, x.peer);
    }
    forall w | 0 <= w < |s.waits| && Rendezvous.Active(s.waits[w]) && s.waits[w].bot == bot
               && TrimSpace(s.waits[w].peer) == TrimSpace(peer)
      ensures k in s.table
    {
      WaitKeyInjective(labels, bot, peer, s.waits[w].bot, s.waits[w].peer);
    }
  }

  /** What the loop sees in the map is whether a wait for the message's own chat is pending. */
  lemma WaitingMeansPending(u: Setup, s: State, bot: nat, m: Message)
    requires ValidSetup(u) && Rendezvous.TableOk(u.labels, s.approvals) && bot < |u.labels|
    ensures Waiting(u, s, bot, m) <==> PendingFor(s, bot, m)
    ensures Waiting(u, s, bot, m) ==>
      var w := s.approvals.table[WaitKey(u.labels[bot], TrimSpace(m.fromUserID))];
      w < |s.approvals.waits| && IsFor(s, w, bot, m)
  {
    hide TrimSpace, WaitKey, AcceptedLabels;
    TableIsPending(u.labels, s.approvals, bot, TrimSpace(m.fromUserID));
    TrimTwice(m.fromUserID);
    hide Rendezvous.TableOk;
    if PendingFor(s, bot, m) {
      var w :| 0 <= w < |s.approvals.waits| && IsFor(s, w, bot, m);
    }
    if Waiting(u, s, bot, m) {
      assert IsFor(s, s.approvals.table[WaitKey(u.labels[bot], TrimSpace(m.fromUserID))], bot, m);
    }
  }

  lemma TableOkAlways(u: Setup, es: seq<Event>)
    requires IsRun(u, es)
    ensures Rendezvous.Inv(u.labels, After(u, es).approvals)
  {
    hide Rendezvous.Inv, After, IsRun, Rendezvous.After, Rendezvous.IsRun;
    ApprovalsAreRun(u, es);
    Rendezvous.Reachable(u.labels, ApprovalRun(u, es));
  }

  // ------------------------------------------------------- one message resolved

  /** The record of a message that a wait hears now. */
  function NewLookup(s: State, bot: nat, m: Message, w: nat): (x: Rendezvous.Lookup) {
    Rendezvous.Lookup(bot, TrimSpace(m.fromUserID), BodyOf(m), w, s.approvals.now, false)
  }

  lemma ResolveStep(u: Setup, s: State, bot: nat)
    requires Shape(u, s) && Enabled(u, s, Resolve(bot))
    ensures var t, m := Step(u, s, Resolve(bot)), s.handling[bot].msg;
      var k := WaitKey(u.labels[bot], TrimSpace(m.fromUserID));
      && (Waiting(u, s, bot, m) ==>
            && t.jobs == s.jobs
            && t.approvals.lookups == s.approvals.lookups + [NewLookup(s, bot, m, s.approvals.table[k])])
      && (!Waiting(u, s, bot, m) ==>
            t.approvals.lookups == s.approvals.lookups
            && t.jobs == s.jobs + if MayRun(u, bot, m) then [JobOf(u, bot, m)] else [])
  {
    hide TrimSpace, WaitKey, MayRun, JobOf, BodyOf;
  }

  /** A bot that lists nobody allows everybody; otherwise the sender must be listed, up to white space. */
  predicate Listed(allow: seq<string>, sender: string) {
    allow == [] || exists a :: a in allow && TrimSpace(a) == TrimSpace(sender)
  }

  lemma MayRunIff(u: Setup, bot: nat, m: Message)
    ensures MayRun(u, bot, m) <==> bot < |u.allow| && Listed(u.allow[bot], m.fromUserID)
  {
    hide TrimSpace;
    TrimTwice(m.fromUserID);
    if bot < |u.allow| {
      var allow := u.allow[bot];
      assert forall i | 0 <= i < |allow| :: allow[i] in allow;
    }
  }

  /** In every run, a message being resolved is heard by the pending approval of its own bot and peer if
      there is one, and then becomes no job; otherwise no approval hears it, and it becomes a job exactly
      when its sender is allowed. */
  lemma HeardOrQueued(u: Setup, es: seq<Event>, bot: nat)
    requires ValidSetup(u) && IsRun(u, es) && Enabled(u, After(u, es), Resolve(bot))
    ensures var s := After(u, es); var t, m := Step(u, s, Resolve(bot)), s.handling[bot].msg;
      && (PendingFor(s, bot, m) ==>
            && t.jobs == s.jobs
            && exists w :: 0 <= w < |s.approvals.waits| && IsFor(s, w, bot, m)
                 && t.approvals.lookups == s.approvals.lookups + [NewLookup(s, bot, m, w)])
      && (!PendingFor(s, bot, m) ==>
            && t.approvals.lookups == s.approvals.lookups
            && t.jobs == s.jobs +
              if bot < |u.allow| && Listed(u.allow[bot], m.fromUserID) then [JobOf(u, bot, m)] else [])
  {
    MayRunIff(u, bot, After(u, es).handling[bot].msg);
    hide TrimSpace, WaitKey, MayRun, JobOf, BodyOf, Step, After, IsRun, AcceptedLabels, IsFor, PendingFor, Listed;
    hide Rendezvous.TableOk;
    var s := After(u, es);
    var m := s.handling[bot].msg;
    TableOkAlways(u, es);
    WaitingMeansPending(u, s, bot, m);
    ResolveStep(u, s, bot);
    if Waiting(u, s, bot, m) {
      var w := s.approvals.table[WaitKey(u.labels[bot], TrimSpace(m.fromUserID))];
      assert IsFor(s, w, bot, m);
    }
  }

  // --------------------------------------------- where jobs and answers come from

  /** At `k` this message arrived at this bot, went past the deduplicator, and had something to say. */
  ghost predicate Started(u: Setup, es: seq<Event>, bot: nat, m: Message, k: nat)
    requires IsRun(u, es)
  {
    && k < |es| && es[k].Arrive? && es[k].bot == bot && es[k].msg == m && bot < |u.labels|
    && PassedDedup(u, es, k) && (!Blank(m.body) || m.hasRef)
  }

  /** The message that arrived at `o.arrived` was resolved at `o.resolved`. */
  ghost predicate ResolvedAt(u: Setup, es: seq<Event>, bot: nat, m: Message, o: Origin)
    requires IsRun(u, es)
  {
    Started(u, es, bot, m, o.arrived) && o.arrived < o.resolved < |es| && es[o.resolved] == Resolve(bot)
  }

  /** No approval was registered for this chat when the message was resolved. */
  ghost predicate NonePending(u: Setup, es: seq<Event>, bot: nat, m: Message, k: nat)
    requires IsRun(u, es) && k <= |es|
  {
    PrefixIsRun(u, es, k);
    !PendingFor(After(u, es[..k]), bot, m)
  }

  /** This job was made by the message that `o` names: resolved when no approval was pending for its chat,
      and from an allowed sender. */
  ghost predicate MadeBy(u: Setup, es: seq<Event>, job: Job, o: Origin)
    requires IsRun(u, es)
  {
    && job.bot < |u.labels| && o.arrived < |es| && es[o.arrived].Arrive?
    && var m := es[o.arrived].msg;
       && ResolvedAt(u, es, job.bot, m, o)
       && job == JobOf(u, job.bot, m) && MayRun(u, job.bot, m)
       && NonePending(u, es, job.bot, m, o.resolved)
  }

  /** This lookup heard the message that `o` names. */
  ghost predicate HeardBy(u: Setup, es: seq<Event>, x: Rendezvous.Lookup, o: Origin)
    requires IsRun(u, es)
  {
    && o.arrived < |es| && es[o.arrived].Arrive?
    && var m := es[o.arrived].msg;
       && ResolvedAt(u, es, x.bot, m, o)
       && x.peer == TrimSpace(m.fromUserID) && x.content == BodyOf(m)
  }

  /** The books of a run: every job and every lookup that found an approval has its message, and so has
      every loop that is at work. */
  ghost predicate Books(u: Setup, es: seq<Event>, s: State)
    requires IsRun(u, es)
  {
    && |s.origins| == |s.jobs| && |s.heard| == |s.approvals.lookups|
    && (forall b | b in s.handling :: Started(u, es, b, s.handling[b].msg, s.handling[b].at))
    && (forall j | 0 <= j < |s.jobs| :: MadeBy(u, es, s.jobs[j], s.origins[j]))
    && (forall l | 0 <= l < |s.heard| :: HeardBy(u, es, s.approvals.lookups[l], s.heard[l]))
  }

  /** Each bot's loop makes at most one job or lookup of a message, and in the order they arrived. */
  ghost predicate InTurn(s: State)
    requires |s.origins| == |s.jobs| && |s.heard| == |s.approvals.lookups|
  {
    && (forall i, j | 0 <= i < j < |s.jobs| && s.jobs[i].bot == s.jobs[j].bot ::
          s.origins[i].arrived < s.origins[j].arrived)
    && (forall l, j | 0 <= l < |s.heard| && 0 <= j < |s.jobs| && s.approvals.lookups[l].bot == s.jobs[j].bot ::
          s.heard[l].arrived != s.origins[j].arrived)
    && (forall j | 0 <= j < |s.jobs| && s.jobs[j].bot in s.handling ::
          s.origins[j].arrived < s.handling[s.jobs[j].bot].at)
    && (forall l | 0 <= l < |s.heard| && s.approvals.lookups[l].bot in s.handling ::
          s.heard[l].arrived < s.handling[s.approvals.lookups[l].bot].at)
    && (forall j | 0 <= j < |s.jobs| :: s.origins[j].arrived < s.count)
    && (forall l | 0 <= l < |s.heard| :: s.heard[l].arrived < s.count && s.heard[l].resolved < s.count)
    && (forall l, m | 0 <= l < m < |s.heard| :: s.heard[l].resolved < s.heard[m].resolved)
    && (forall b | b in s.handling :: s.handling[b].at < s.count)
  }

  // ------------------------------------------------------------- the books grow

  lemma StartedStays(u: Setup, es: seq<Event>, bot: nat, m: Message, k: nat)
    requires IsRun(u, es) && es != [] && IsRun(u, es[..|es| - 1]) && Started(u, es[..|es| - 1], bot, m, k)
    ensures Started(u, es, bot, m, k)
  {
    hide Direct, Dropped, After, IsRun, Blank;
    assert es[..|es| - 1][..k] == es[..k];
  }

  lemma NonePendingStays(u: Setup, es: seq<Event>, bot: nat, m: Message, k: nat)
    requires IsRun(u, es) && es != [] && IsRun(u, es[..|es| - 1]) && k < |es|
    requires NonePending(u, es[..|es| - 1], bot, m, k)
    ensures NonePending(u, es, bot, m, k)
  {
    hide After, IsRun, PendingFor;
    assert es[..|es| - 1][..k] == es[..k];
  }

  lemma BooksStay(u: Setup, es: seq<Event>, s: State)
    requires IsRun(u, es) && es != [] && IsRun(u, es[..|es| - 1]) && Books(u, es[..|es| - 1], s)
    ensures Books(u, es, s)
  {
    hide Started, NonePending, IsRun, JobOf, MayRun, BodyOf;
    var before := es[..|es| - 1];
    forall bot: nat, m, k: nat | Started(u, before, bot, m, k) ensures Started(u, es, bot, m, k) {
      StartedStays(u, es, bot, m, k);
    }
    forall bot: nat, m, k: nat | k < |es| && NonePending(u, before, bot, m, k) ensures NonePending(u, es, bot, m, k) {
      NonePendingStays(u, es, bot, m, k);
    }
  }

  /** What is on record of a lookup. */
  predicate SameLookups(a: Rendezvous.State, b: Rendezvous.State) {
    && |a.lookups| == |b.lookups|
    && forall l | 0 <= l < |a.lookups| ::
         a.lookups[l].bot == b.lookups[l].bot && a.lookups[l].peer == b.lookups[l].peer
         && a.lookups[l].content == b.lookups[l].content && a.lookups[l].entry == b.lookups[l].entry
  }

  /** Everything but an arrival or a resolution leaves the books alone. */
  lemma OtherStep(u: Setup, s: State, e: Event)
    requires Shape(u, s) && Enabled(u, s, e) && !e.Arrive? && !e.Resolve?
    ensures var t := Step(u, s, e);
      && t.handling == s.handling && t.jobs == s.jobs && t.origins == s.origins && t.heard == s.heard
      && SameLookups(s.approvals, t.approvals) && t.count == s.count + 1
  {
    hide TrimSpace, ToolTarget, RouteOf, Plain, Outgoing, WaitKey, Pick, WithToken, ParseFor;
  }

  lemma ArriveStep(u: Setup, s: State, e: Event)
    requires Shape(u, s) && Enabled(u, s, e) && e.Arrive?
    ensures var t := Step(u, s, e);
      && t.handling == (if GoesOn(u, s, e) then s.handling[e.bot := Handling(e.msg, s.count)] else s.handling)
      && t.jobs == s.jobs && t.origins == s.origins && t.heard == s.heard
      && t.approvals == s.approvals && t.count == s.count + 1
  {
    hide TrimSpace, Judge, DedupCall, WithToken, Direct, InboundToken;
  }

  lemma ResolveBooks(u: Setup, s: State, bot: nat)
    requires Shape(u, s) && Enabled(u, s, Resolve(bot))
    ensures var t, h := Step(u, s, Resolve(bot)), s.handling[bot]; var o := Origin(h.at, s.count);
      && t.handling == s.handling - {bot} && t.count == s.count + 1
      && t.heard == s.heard + (if Waiting(u, s, bot, h.msg) then [o] else [])
      && t.origins == s.origins + if !Waiting(u, s, bot, h.msg) && MayRun(u, bot, h.msg) then [o] else []
  {
    hide TrimSpace, WaitKey, MayRun, JobOf, BodyOf, Approvals;
  }

  lemma BooksSame(u: Setup, es: seq<Event>, s: State, t: State)
    requires IsRun(u, es) && Books(u, es, s) && InTurn(s)
    requires t.handling == s.handling && t.jobs == s.jobs && t.origins == s.origins && t.heard == s.heard
    requires SameLookups(s.approvals, t.approvals) && s.count <= t.count
    ensures Books(u, es, t) && InTurn(t)
  {
    hide IsRun, Started, ResolvedAt, JobOf, MayRun, NonePending, BodyOf;
  }

  lemma BooksOnArrival(u: Setup, es: seq<Event>, s: State, t: State, bot: nat, h: Handling)
    requires IsRun(u, es) && Books(u, es, s) && InTurn(s)
    requires t.handling == s.handling[bot := h] && h.at == s.count && t.count == s.count + 1
    requires t.jobs == s.jobs && t.origins == s.origins && t.heard == s.heard && t.approvals == s.approvals
    requires Started(u, es, bot, h.msg, h.at)
    ensures Books(u, es, t) && InTurn(t)
  {
    hide IsRun, Started, MadeBy, HeardBy;
  }

  lemma BooksOnJob(u: Setup, es: seq<Event>, s: State, t: State, bot: nat, job: Job, o: Origin)
    requires IsRun(u, es) && Books(u, es, s) && InTurn(s)
    requires bot in s.handling && t.handling == s.handling - {bot} && t.count == s.count + 1
    requires t.heard == s.heard && t.approvals.lookups == s.approvals.lookups
    requires t.jobs == s.jobs + [job] && t.origins == s.origins + [o]
    requires job.bot == bot && o.arrived == s.handling[bot].at && MadeBy(u, es, job, o)
    ensures Books(u, es, t) && InTurn(t)
  {
    hide IsRun, Started, MadeBy, HeardBy;
  }

  lemma BooksOnLookup(u: Setup, es: seq<Event>, s: State, t: State, bot: nat, x: Rendezvous.Lookup, o: Origin)
    requires IsRun(u, es) && Books(u, es, s) && InTurn(s)
    requires bot in s.handling && t.handling == s.handling - {bot} && t.count == s.count + 1
    requires t.heard == s.heard + [o] && t.approvals.lookups == s.approvals.lookups + [x]
    requires t.jobs == s.jobs && t.origins == s.origins
    requires x.bot == bot && o.arrived == s.handling[bot].at && o.resolved == s.count && HeardBy(u, es, x, o)
    ensures Books(u, es, t) && InTurn(t)
  {
    hide IsRun, Started, MadeBy, HeardBy;
  }

  lemma BooksOnRefusal(u: Setup, es: seq<Event>, s: State, t: State, bot: nat)
    requires IsRun(u, es) && Books(u, es, s) && InTurn(s)
    requires t.handling == s.handling - {bot} && t.count == s.count + 1
    requires t.heard == s.heard && t.approvals.lookups == s.approvals.lookups
    requires t.jobs == s.jobs && t.origins == s.origins
    ensures Books(u, es, t) && InTurn(t)
  {
    hide IsRun, Started, MadeBy, HeardBy;
  }

  lemma NowStarted(u: Setup, es: seq<Event>, s: State, e: Event)
    requires IsRun(u, es) && es != [] && IsRun(u, es[..|es| - 1])
    requires s == After(u, es[..|es| - 1]) && e == es[|es| - 1] && GoesOn(u, s, e)
    ensures Started(u, es, e.bot, e.msg, |es| - 1)
  {
    hide Direct, Dropped, IsRun, After, Blank;
    RunBots(u, es, |es| - 1);
  }

  lemma ArriveGrows(u: Setup, es: seq<Event>, s: State, t: State)
    requires IsRun(u, es) && es != [] && IsRun(u, es[..|es| - 1]) && Books(u, es, s) && InTurn(s)
    requires var n := |es| - 1;
      s == After(u, es[..n]) && s.count == n && es[n].Arrive? && Enabled(u, s, es[n]) && t == Step(u, s, es[n])
    ensures Books(u, es, t) && InTurn(t)
  {
    var n := |es| - 1;
    var e := es[n];
    ArriveStep(u, s, e);
    if GoesOn(u, s, e) { NowStarted(u, es, s, e); }
    hide IsRun, After, Step, Books, InTurn, Started, GoesOn;
    if GoesOn(u, s, e) {
      BooksOnArrival(u, es, s, t, e.bot, Handling(e.msg, s.count));
    } else {
      BooksSame(u, es, s, t);
    }
  }

  lemma NoneIsPending(u: Setup, es: seq<Event>, bot: nat, m: Message)
    requires ValidSetup(u) && IsRun(u, es) && es != [] && bot < |u.labels|
    requires IsRun(u, es[..|es| - 1]) && !Waiting(u, After(u, es[..|es| - 1]), bot, m)
    ensures NonePending(u, es, bot, m, |es| - 1)
  {
    var before := es[..|es| - 1];
    TableOkAlways(u, before);
    hide IsRun, After, Waiting, Rendezvous.TableOk, PendingFor, AcceptedLabels;
    WaitingMeansPending(u, After(u, before), bot, m);
  }

  lemma MakesJob(u: Setup, es: seq<Event>, bot: nat, h: Handling)
    requires IsRun(u, es) && es != [] && es[|es| - 1] == Resolve(bot)
    requires Started(u, es, bot, h.msg, h.at) && h.at < |es| - 1 && MayRun(u, bot, h.msg)
    requires NonePending(u, es, bot, h.msg, |es| - 1)
    ensures MadeBy(u, es, JobOf(u, bot, h.msg), Origin(h.at, |es| - 1))
  {
    hide IsRun, MayRun, PassedDedup, NonePending, TrimSpace, TapeForPeer, MessageKey;
  }

  lemma HearsMessage(u: Setup, es: seq<Event>, bot: nat, h: Handling, x: Rendezvous.Lookup)
    requires IsRun(u, es) && es != [] && es[|es| - 1] == Resolve(bot)
    requires Started(u, es, bot, h.msg, h.at) && h.at < |es| - 1
    requires x.bot == bot && x.peer == TrimSpace(h.msg.fromUserID) && x.content == BodyOf(h.msg)
    ensures HeardBy(u, es, x, Origin(h.at, |es| - 1))
  {
    hide IsRun, PassedDedup;
  }

  lemma AtWork(u: Setup, es: seq<Event>, s: State, bot: nat)
    requires IsRun(u, es) && Books(u, es, s) && InTurn(s) && bot in s.handling
    ensures var h := s.handling[bot];
      Started(u, es, bot, h.msg, h.at) && h.at < s.count && bot < |u.labels|
  {
    hide IsRun, MadeBy, HeardBy, PassedDedup;
  }

  lemma ResolveGrows(u: Setup, es: seq<Event>, s: State, t: State)
    requires ValidSetup(u) && IsRun(u, es) && es != [] && IsRun(u, es[..|es| - 1]) && Books(u, es, s) && InTurn(s)
    requires var n := |es| - 1;
      s == After(u, es[..n]) && s.count == n && es[n].Resolve? && Enabled(u, s, es[n]) && t == Step(u, s, es[n])
    ensures Books(u, es, t) && InTurn(t)
  {
    var bot := es[|es| - 1].bot;
    var h := s.handling[bot];
    var o := Origin(h.at, s.count);
    AtWork(u, es, s, bot);
    ResolveStep(u, s, bot);
    ResolveBooks(u, s, bot);
    hide IsRun, After, Step, ValidSetup, Started, MadeBy, HeardBy, MayRun, BodyOf, Waiting, Books, InTurn;
    hide TrimSpace, WaitKey;
    if Waiting(u, s, bot, h.msg) {
      var x := t.approvals.lookups[|s.approvals.lookups|];
      HearsMessage(u, es, bot, h, x);
      BooksOnLookup(u, es, s, t, bot, x, o);
    } else if MayRun(u, bot, h.msg) {
      NoneIsPending(u, es, bot, h.msg);
      MakesJob(u, es, bot, h);
      JobBot(u, bot, h.msg);
      BooksOnJob(u, es, s, t, bot, JobOf(u, bot, h.msg), o);
    } else {
      BooksOnRefusal(u, es, s, t, bot);
    }
  }

  lemma JobBot(u: Setup, bot: nat, m: Message)
    requires bot < |u.labels|
    ensures JobOf(u, bot, m).bot == bot
  {
  }

  lemma {:induction false} BooksAlways(u: Setup, es: seq<Event>)
    requires ValidSetup(u) && IsRun(u, es)
    ensures Books(u, es, After(u, es)) && InTurn(After(u, es)) && After(u, es).count == |es|
  {
    hide Books, InTurn, Step, ValidSetup, Enabled;
    if es == [] {
      BooksOpen(u);
    } else {
      var n := |es| - 1;
      BooksAlways(u, es[..n]);
      var s := After(u, es[..n]);
      BooksStay(u, es, s);
      if es[n].Arrive? {
        ArriveGrows(u, es, s, After(u, es));
      } else if es[n].Resolve? {
        ResolveGrows(u, es, s, After(u, es));
      } else {
        OtherStep(u, s, es[n]);
        BooksSame(u, es, s, After(u, es));
      }
      CountStep(u, s, es[n]);
    }
  }

  lemma CountStep(u: Setup, s: State, e: Event)
    requires Shape(u, s) && Enabled(u, s, e)
    ensures Step(u, s, e).count == s.count + 1
  {
    hide Act, Approvals;
  }

  lemma BooksOpen(u: Setup)
    ensures Books(u, [], After(u, [])) && InTurn(After(u, [])) && After(u, []).count == 0
  {
  }

  // --------------------------------------------------------------- over all runs

  lemma OriginBots(u: Setup, es: seq<Event>, s: State)
    requires IsRun(u, es) && Books(u, es, s)
    ensures forall j | 0 <= j < |s.jobs| ::
      s.origins[j].arrived < |es| && es[s.origins[j].arrived].Arrive? && es[s.origins[j].arrived].bot == s.jobs[j].bot
    ensures forall l | 0 <= l < |s.heard| ::
      && s.heard[l].arrived < |es| && es[s.heard[l].arrived].Arrive?
      && es[s.heard[l].arrived].bot == s.approvals.lookups[l].bot
  {
    hide IsRun, PassedDedup, NonePending, JobOf, MayRun, BodyOf;
  }

  /** In every run each job was made by its own message, different ones by different messages and those of
      one bot in the order the messages arrived: one that went past the deduplicator, that came when no
      approval was pending for its chat, and whose sender the bot allows. */
  lemma JobsHaveOrigins(u: Setup, es: seq<Event>)
    requires ValidSetup(u) && IsRun(u, es)
    ensures var s := After(u, es);
      && |s.origins| == |s.jobs|
      && (forall j | 0 <= j < |s.jobs| :: MadeBy(u, es, s.jobs[j], s.origins[j]))
      && (forall i, j | 0 <= i < j < |s.jobs| :: s.origins[i].arrived != s.origins[j].arrived)
      && (forall i, j | 0 <= i < j < |s.jobs| && s.jobs[i].bot == s.jobs[j].bot ::
            s.origins[i].arrived < s.origins[j].arrived)
  {
    hide IsRun, After, MadeBy, HeardBy, Started;
    BooksAlways(u, es);
    OriginBots(u, es, After(u, es));
  }

  /** No message is both heard by an approval and run as a job. */
  lemma NeverBoth(u: Setup, es: seq<Event>, l: nat, j: nat)
    requires ValidSetup(u) && IsRun(u, es) && l < |After(u, es).heard| && j < |After(u, es).jobs|
    ensures var s := After(u, es);
      && |s.origins| == |s.jobs| && |s.heard| == |s.approvals.lookups|
      && HeardBy(u, es, s.approvals.lookups[l], s.heard[l])
      && s.heard[l].arrived != s.origins[j].arrived
  {
    hide IsRun, After, MadeBy, HeardBy, Started;
    BooksAlways(u, es);
    OriginBots(u, es, After(u, es));
  }

  /** What a message says: its text, or for one without text a phrase that no approval takes for a yes. */
  function Said(m: Message): (text: string) {
    if TrimSpace(m.body) != "" then m.body else "[empty or non-text message]"
  }

  /** This message arrived from the chat the wait is for, went past the deduplicator, reads as this reply,
      and made no job. */
  ghost predicate Answers(u: Setup, es: seq<Event>, s: State, y: Rendezvous.Wait, k: nat)
    requires IsRun(u, es)
  {
    && k < |es| && es[k].Arrive? && PassedDedup(u, es, k)
    && es[k].bot == y.bot && TrimSpace(es[k].msg.fromUserID) == TrimSpace(y.peer)
    && y.outcome == Rendezvous.Got(ParseFor(y.batchN, Said(es[k].msg)))
    && forall o | o in s.origins :: o.arrived != k
  }

  lemma SaidIsBody(m: Message)
    ensures BodyOf(m) == Said(m)
  {
    hide TrimSpace;
  }

  /** In plain terms: this message makes this job of a bot with this label and this list of allowed senders. */
  predicate Makes(m: Message, job: Job, botLabel: string, allow: seq<string>) {
    && Provenance.Private(m) && (TrimSpace(m.body) != "" || m.hasRef) && Listed(allow, m.fromUserID)
    && job.peer == TrimSpace(m.fromUserID)
    && job.content == (if TrimSpace(m.body) != "" then m.body else "[empty or non-text message]")
    && job.trigger == (if m.messageID != 0 then "mid:" + FormatInt(m.messageID)
                       else if m.seqNo != 0 then "seq:" + FormatInt(m.seqNo) else "")
    && (if TrimSpace(m.token) == "" && TrimSpace(m.tokenCamel) == "" && TrimSpace(m.tokenPascal) == ""
        then job.token == "" else Provenance.TokenIn(m, job.token))
    && job.tape == (if botLabel == "" then "weixin:p2p:" + job.peer else "weixin:" + botLabel + ":p2p:" + job.peer)
  }

  lemma JobOfMakes(u: Setup, bot: nat, m: Message)
    requires bot < |u.labels| && bot < |u.allow| && Direct(m) && (!Blank(m.body) || m.hasRef) && MayRun(u, bot, m)
    ensures Makes(m, JobOf(u, bot, m), u.labels[bot], u.allow[bot])
  {
    Provenance.TokenInIff(m);
    MayRunIff(u, bot, m);
    hide TrimSpace, FormatInt, InboundToken, Listed, Allowed, Provenance.TokenIn;
    var peer := TrimSpace(m.fromUserID);
    assert "weixin:" + u.labels[bot] + ":p2p:" + peer == ("weixin:" + u.labels[bot]) + ":p2p:" + peer;
  }

  /** In every run each job says what its message says: who sent it, its text, its id, its token; and its message
      was a private one, with something to say, from a listed sender. */
  lemma JobSays(u: Setup, es: seq<Event>, j: nat)
    requires ValidSetup(u) && IsRun(u, es) && j < |After(u, es).jobs|
    ensures var s := After(u, es); |s.origins| == |s.jobs| && var job, k := s.jobs[j], s.origins[j].arrived;
      && k < |es| && es[k].Arrive? && es[k].bot == job.bot < |u.labels| == |u.allow|
      && Makes(es[k].msg, job, u.labels[job.bot], u.allow[job.bot])
  {
    hide TrimSpace, After, IsRun, NonePending, JobOf, MayRun, Makes, AcceptedLabels, Direct;
    JobsHaveOrigins(u, es);
    var s := After(u, es);
    var job, k := s.jobs[j], s.origins[j].arrived;
    assert MadeBy(u, es, job, s.origins[j]);
    PassedIsAnswer(u, es, k);
    hide PassedDedup;
    JobOfMakes(u, job.bot, es[k].msg);
  }

  /** A loop is left with a message to resolve exactly when it is a private one with something to say that the
      deduplicator did not drop. */
  lemma TakenUpIff(u: Setup, es: seq<Event>, now: int, bot: nat, m: Message)
    requires IsRun(u, es) && Enabled(u, After(u, es), Arrive(now, bot, m))
    ensures var s, e := After(u, es), Arrive(now, bot, m);
      bot in Step(u, s, e).handling <==>
        Provenance.Private(m) && (TrimSpace(m.body) != "" || m.hasRef) && !Dropped(u, s, e)
  {
    ArriveStep(u, After(u, es), Arrive(now, bot, m));
    hide TrimSpace, After, IsRun, Step, Dropped;
  }

  lemma HeardAnswers(u: Setup, es: seq<Event>, s: State, y: Rendezvous.Wait, l: nat)
    requires IsRun(u, es) && |s.heard| == |s.approvals.lookups| && l < |s.heard|
    requires HeardBy(u, es, s.approvals.lookups[l], s.heard[l])
    requires var x := s.approvals.lookups[l];
      && y.outcome == Rendezvous.Got(ParseFor(y.batchN, x.content))
      && x.bot == y.bot && TrimSpace(x.peer) == TrimSpace(y.peer)
    requires forall j | 0 <= j < |s.origins| :: s.heard[l].arrived != s.origins[j].arrived
    ensures Answers(u, es, s, y, s.heard[l].arrived)
  {
    TrimTwice(es[s.heard[l].arrived].msg.fromUserID);
    SaidIsBody(es[s.heard[l].arrived].msg);
    hide IsRun, PassedDedup, TrimSpace, ParseFor, BodyOf, Said;
  }

  lemma WaitHeard(u: Setup, es: seq<Event>, w: nat) returns (l: nat)
    requires ValidSetup(u) && IsRun(u, es) && w < |After(u, es).approvals.waits|
    requires After(u, es).approvals.waits[w].outcome.Got?
    ensures var s := After(u, es).approvals; var y := s.waits[w];
      && l < |s.lookups| && y.outcome == Rendezvous.Got(ParseFor(y.batchN, s.lookups[l].content))
      && s.lookups[l].bot == y.bot && TrimSpace(s.lookups[l].peer) == TrimSpace(y.peer)
      && forall m | 0 <= m < |s.lookups| && s.lookups[m].entry == w :: l <= m
  {
    hide IsRun, After, TrimSpace, ParseFor, Rendezvous.IsRun, Rendezvous.After;
    ApprovalsAreRun(u, es);
    Rendezvous.ResultIsOwnReply(u.labels, ApprovalRun(u, es), w);
    Rendezvous.FirstHeardWins(u.labels, ApprovalRun(u, es), w);
    l := After(u, es).approvals.waits[w].offers[0];
  }

  /** The r-th event of a run resolved a message of the chat that the w-th wait was registered for then. */
  ghost predicate ResolvedFor(u: Setup, es: seq<Event>, w: nat, r: nat)
    requires IsRun(u, es) && r < |es|
  {
    PrefixIsRun(u, es, r);
    var s := After(u, es[..r]);
    es[r].Resolve? && w < |s.approvals.waits| && IsFor(s, w, es[r].bot, s.handling[es[r].bot].msg)
  }

  ghost predicate HeardAt(s: State, w: nat, r: nat)
    requires |s.heard| == |s.approvals.lookups|
  {
    exists l: nat :: l < |s.heard| && s.heard[l].resolved == r && s.approvals.lookups[l].entry == w
  }

  lemma HeardAtStays(s: State, t: State, w: nat, r: nat)
    requires |s.heard| == |s.approvals.lookups| <= |t.approvals.lookups| == |t.heard|
    requires s.heard <= t.heard
    requires forall l | 0 <= l < |s.heard| :: t.approvals.lookups[l].entry == s.approvals.lookups[l].entry
    requires HeardAt(s, w, r)
    ensures HeardAt(t, w, r)
  {
  }

  lemma HeardGrows(u: Setup, s: State, e: Event)
    requires Shape(u, s) && Enabled(u, s, e) && |s.heard| == |s.approvals.lookups|
    ensures var t := Step(u, s, e);
      && |s.heard| <= |t.heard| == |t.approvals.lookups| && s.heard <= t.heard
      && forall l | 0 <= l < |s.heard| :: t.approvals.lookups[l].entry == s.approvals.lookups[l].entry
  {
    if e.Arrive? {
      ArriveStep(u, s, e);
    } else if e.Resolve? {
      ResolveStep(u, s, e.bot);
      ResolveBooks(u, s, e.bot);
    } else {
      OtherStep(u, s, e);
    }
    hide Step, Waiting, MayRun, NewLookup, JobOf;
  }

  /** A message resolved while a wait for its chat is registered is heard by that wait. */
  lemma ResolvedIsHeard(u: Setup, s: State, w: nat, bot: nat)
    requires ValidSetup(u) && Shape(u, s) && Rendezvous.TableOk(u.labels, s.approvals) && Enabled(u, s, Resolve(bot))
    requires |s.heard| == |s.approvals.lookups| && w < |s.approvals.waits| && IsFor(s, w, bot, s.handling[bot].msg)
    ensures var t := Step(u, s, Resolve(bot)); |t.heard| == |t.approvals.lookups| && HeardAt(t, w, s.count)
  {
    ResolveStep(u, s, bot);
    ResolveBooks(u, s, bot);
    var m := s.handling[bot].msg;
    SameKey(u.labels[bot], s.approvals.waits[w].peer, m.fromUserID);
    hide Step, WaitKey, TrimSpace, MayRun, JobOf, BodyOf, AcceptedLabels;
    assert s.approvals.table[WaitKey(u.labels[bot], TrimSpace(m.fromUserID))] == w;
    var t, l := Step(u, s, Resolve(bot)), |s.heard|;
    assert t.heard[l].resolved == s.count && t.approvals.lookups[l].entry == w;
  }

  lemma SameKey(botLabel: string, a: string, b: string)
    requires TrimSpace(a) == TrimSpace(b)
    ensures WaitKey(botLabel, a) == WaitKey(botLabel, TrimSpace(b))
  {
    hide TrimSpace;
    TrimTwice(b);
  }

  lemma BookSizes(u: Setup, es: seq<Event>)
    requires ValidSetup(u) && IsRun(u, es)
    ensures |After(u, es).heard| == |After(u, es).approvals.lookups| && After(u, es).count == |es|
  {
    hide IsRun, After, MadeBy, HeardBy, Started, ValidSetup;
    BooksAlways(u, es);
  }

  /** The state before the r-th event, in which it resolved a message of the wait's chat. */
  lemma ResolvedState(u: Setup, es: seq<Event>, w: nat, r: nat)
    requires IsRun(u, es) && r < |es| && ResolvedFor(u, es, w, r)
    ensures IsRun(u, es[..r]) && Enabled(u, After(u, es[..r]), es[r]) && es[r].Resolve?
    ensures var s := After(u, es[..r]);
      w < |s.approvals.waits| && IsFor(s, w, es[r].bot, s.handling[es[r].bot].msg)
  {
    PrefixIsRun(u, es, r);
    hide IsRun, After, IsFor;
  }

  lemma {:induction false} AllResolvedHeard(u: Setup, es: seq<Event>, w: nat, r: nat)
    requires ValidSetup(u) && IsRun(u, es) && r < |es| && ResolvedFor(u, es, w, r)
    ensures |After(u, es).heard| == |After(u, es).approvals.lookups| && HeardAt(After(u, es), w, r)
  {
    hide Step, Enabled, IsFor, HeardAt, ValidSetup, Rendezvous.Inv;
    var n := |es| - 1;
    var s := After(u, es[..n]);
    BookSizes(u, es[..n]);
    if r == n {
      ResolvedState(u, es, w, r);
      hide ResolvedFor;
      ResolvedNow(u, es[..n], w, es[n].bot);
    } else {
      assert es[..n][..r] == es[..r];
      AllResolvedHeard(u, es[..n], w, r);
      HeardGrows(u, s, es[n]);
      HeardAtStays(s, After(u, es), w, r);
    }
  }

  lemma ResolvedNow(u: Setup, es: seq<Event>, w: nat, bot: nat)
    requires ValidSetup(u) && IsRun(u, es) && Enabled(u, After(u, es), Resolve(bot))
    requires var s := After(u, es);
      w < |s.approvals.waits| && IsFor(s, w, bot, s.handling[bot].msg)
    ensures var t := Step(u, After(u, es), Resolve(bot));
      |t.heard| == |t.approvals.lookups| && HeardAt(t, w, |es|)
  {
    hide IsRun, After, Step, Enabled, IsFor, HeardAt, ValidSetup;
    BookSizes(u, es);
    TableOkAlways(u, es);
    ResolvedIsHeard(u, After(u, es), w, bot);
  }

  /** The message that `o` names answered this wait, and no message of the wait's chat was resolved before it
      while the wait was registered. */
  ghost predicate FirstToAnswer(u: Setup, es: seq<Event>, w: nat, o: Origin)
    requires IsRun(u, es) && w < |After(u, es).approvals.waits|
  {
    && Answers(u, es, After(u, es), After(u, es).approvals.waits[w], o.arrived)
    && forall r: nat | r < |es| && ResolvedFor(u, es, w, r) :: o.resolved <= r
  }

  /** In every run whatever a wait answers, other than for want of a reply, is what a message said that
      arrived from the wait's own peer at its own bot, went past the deduplicator, and made no job: the first
      message of its chat that was resolved while the wait was registered. */
  lemma AnswerCameIn(u: Setup, es: seq<Event>, w: nat)
    requires ValidSetup(u) && IsRun(u, es) && w < |After(u, es).approvals.waits|
    requires After(u, es).approvals.waits[w].outcome.Got?
    ensures exists o :: o in After(u, es).heard && FirstToAnswer(u, es, w, o)
  {
    hide IsRun, After, TrimSpace, ParseFor, HeardBy, Answers, MadeBy, Started, AcceptedLabels;
    var l := WaitHeard(u, es, w);
    BooksAlways(u, es);
    var s := After(u, es);
    forall j | 0 <= j < |s.origins| ensures s.heard[l].arrived != s.origins[j].arrived { NeverBoth(u, es, l, j); }
    HeardAnswers(u, es, s, s.approvals.waits[w], l);
    forall r: nat | r < |es| && ResolvedFor(u, es, w, r) ensures s.heard[l].resolved <= r {
      AllResolvedHeard(u, es, w, r);
      var m: nat :| m < |s.heard| && s.heard[m].resolved == r && s.approvals.lookups[m].entry == w;
      assert l <= m;
    }
    assert s.heard[l] in s.heard;
  }

  /** No message is run twice: with a steady clock, two jobs of one bot for the same message id come from
      messages at least ttl apart. */
  lemma JobsOncePerMessage(u: Setup, es: seq<Event>, i: nat, j: nat)
    requires ValidSetup(u) && u.ttl > 0 && IsRun(u, es) && Steady(u.ttl, Calls(u, es))
    requires var jobs := After(u, es).jobs;
      i < j < |jobs| && jobs[i].bot == jobs[j].bot && jobs[i].trigger == jobs[j].trigger != ""
    ensures var s := After(u, es);
      && |s.origins| == |s.jobs| && s.origins[i].arrived < s.origins[j].arrived < |es|
      && es[s.origins[i].arrived].Arrive? && es[s.origins[j].arrived].Arrive?
      && es[s.origins[j].arrived].now - es[s.origins[i].arrived].now >= u.ttl
  {
    hide TrimSpace, After, IsRun, MessageKey, Direct, Steady, PassedDedup, NonePending, MayRun;
    JobsHaveOrigins(u, es);
    var s := After(u, es);
    var a, b := s.origins[i].arrived, s.origins[j].arrived;
    assert MadeBy(u, es, s.jobs[i], s.origins[i]) && MadeBy(u, es, s.jobs[j], s.origins[j]);
    assert Direct(es[b].msg) by { PassedIsAnswer(u, es, b); }
    DroppedIffRepeated(u, es, b);
  }

  /** A job's tape leads back to the bot and the peer the message came from, exactly when the bot is not
      called "p2p". */
  lemma JobTapeLeadsBack(u: Setup, es: seq<Event>, j: nat)
    requires ValidSetup(u) && IsRun(u, es) && j < |After(u, es).jobs|
    ensures var x := After(u, es).jobs[j];
      x.bot < |u.labels| && (RouteOf(u.labels, x.tape) == Some((x.bot, x.peer)) <==> u.labels[x.bot] != "p2p")
  {
    hide TrimSpace, IsRun, MessageKey, RouteOf, TapeForPeer, After, PassedDedup, NonePending, MayRun;
    JobsHaveOrigins(u, es);
    Provenance.GenuineAlways(u, es);
    var s := After(u, es);
    var x, k := s.jobs[j], s.origins[j].arrived;
    assert MadeBy(u, es, x, s.origins[j]);
    hide MadeBy;
    TrimmedBy(es[k].msg.fromUserID);
    TapeRoundTrip(u.labels, x.bot, x.peer);
  }

  lemma TrimmedBy(s: string)
    ensures Trimmed(TrimSpace(s))
  {
  }
}
