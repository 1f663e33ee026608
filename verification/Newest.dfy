/** Which of the tokens received from a peer a bot remembers: not always the newest, since a reply puts the
    token of its job back. */
module Newest {
  import opened Text
  import opened Routing
  import opened PlainText
  import opened Dedup
  import opened Bridge
  import opened Provenance
  import Jobs

  /** The r-th event of a run answered a job of this chat that carries this token. */
  ghost predicate Carries(u: Setup, es: seq<Event>, r: nat, bot: nat, peer: string, token: string)
    requires IsRun(u, es) && r < |es|
  {
    PrefixIsRun(u, es, r);
    es[r].Reply? && var job := After(u, es[..r]).jobs[es[r].job];
      job.bot == bot && job.peer == peer && job.token == token && token != ""
  }

  /** The r-th event brought this token from this peer, or answered a job of this chat that carries it. */
  ghost predicate Puts(u: Setup, es: seq<Event>, r: nat, bot: nat, peer: string, token: string)
    requires IsRun(u, es) && r < |es|
  {
    Brings(es[r], bot, peer, token) || Carries(u, es, r, bot, peer, token)
  }

  /** What one event does to the token remembered for a peer. */
  ghost predicate PutsNow(s: State, e: Event, bot: nat, peer: string, token: string) {
    || Brings(e, bot, peer, token)
    || (e.Reply? && e.job < |s.jobs| && var job := s.jobs[e.job];
          job.bot == bot && job.peer == peer && job.token == token && token != "")
  }

  function Remembered(s: State, bot: nat, peer: string): (r: Option<string>)
    requires bot < |s.tokens|
  {
    if peer in s.tokens[bot] then Some(s.tokens[bot][peer]) else None
  }

  /** An event that puts a token there makes it the one remembered; any other leaves what is remembered. */
  lemma StepRemembers(u: Setup, es: seq<Event>, s: State, e: Event, bot: nat, peer: string)
    requires Shape(u, s) && Enabled(u, s, e) && Genuine(es, s) && PeersOk(s) && bot < |u.labels|
    ensures var after := Remembered(Step(u, s, e), bot, peer);
      && (forall token | PutsNow(s, e, bot, peer, token) :: after == Some(token))
      && ((forall token :: !PutsNow(s, e, bot, peer, token)) ==> after == Remembered(s, bot, peer))
  {
    if e.Arrive? {
      ArriveRemembers(u, s, e, bot, peer);
    } else if e.Reply? {
      ReplyRemembers(u, es, s, e, bot, peer);
    } else {
      OtherRemembers(u, s, e);
    }
  }

  lemma ArriveRemembers(u: Setup, s: State, e: Event, bot: nat, peer: string)
    requires Shape(u, s) && Enabled(u, s, e) && e.Arrive? && bot < |u.labels|
    ensures var after := Remembered(Step(u, s, e), bot, peer);
      && (forall token | PutsNow(s, e, bot, peer, token) :: after == Some(token))
      && ((forall token :: !PutsNow(s, e, bot, peer, token)) ==> after == Remembered(s, bot, peer))
  {
    BringsIff(e, bot, peer);
    hide TrimSpace, Judge, DedupCall, GoesOn, Approvals, InboundToken, Brings;
    TrimmedStays(InboundToken(e.msg));
    assert Direct(e.msg) && e.bot == bot && TrimSpace(e.msg.fromUserID) == peer && InboundToken(e.msg) != "" ==>
      PutsNow(s, e, bot, peer, InboundToken(e.msg));
  }

  lemma ReplyRemembers(u: Setup, es: seq<Event>, s: State, e: Event, bot: nat, peer: string)
    requires Shape(u, s) && Enabled(u, s, e) && Genuine(es, s) && PeersOk(s) && e.Reply? && bot < |u.labels|
    ensures var after := Remembered(Step(u, s, e), bot, peer);
      && (forall token | PutsNow(s, e, bot, peer, token) :: after == Some(token))
      && ((forall token :: !PutsNow(s, e, bot, peer, token)) ==> after == Remembered(s, bot, peer))
  {
    var job := s.jobs[e.job];
    ReplyTokens(u, s, e);
    hide Step, Enabled;
    PickOfJob(es, s, job);
    hide Genuine, PeersOk, Pick, TrimSpace;
    assert job.bot == bot && job.peer == peer && job.token != "" ==> PutsNow(s, e, bot, peer, job.token);
  }

  lemma ReplyTokens(u: Setup, s: State, e: Event)
    requires Shape(u, s) && Enabled(u, s, e) && e.Reply?
    ensures var job := s.jobs[e.job]; var token := Pick(s.tokens[job.bot], job.token, job.peer);
      Step(u, s, e).tokens
        == if token == "" then s.tokens else s.tokens[job.bot := WithToken(s.tokens[job.bot], job.peer, token)]
  {
    hide TrimSpace, Plain, Outgoing, Approvals, Pick, WithToken;
  }

  /** Replying with a job's own token makes it the one remembered; replying with the remembered one changes
      nothing. */
  lemma PickOfJob(es: seq<Event>, s: State, job: Job)
    requires Genuine(es, s) && job in s.jobs && job.bot < |s.tokens| && PeersOk(s)
    ensures var m := s.tokens[job.bot]; var token := Pick(m, job.token, job.peer);
      && (job.token != "" ==> token == job.token && WithToken(m, job.peer, token) == m[job.peer := job.token])
      && (job.token == "" && token != "" ==> WithToken(m, job.peer, token) == m)
  {
    EmptyIsBlank();
    if job.token != "" { ReceivedIsTrimmed(es, job.bot, job.peer, job.token); }
    if job.peer in s.tokens[job.bot] { ReceivedIsTrimmed(es, job.bot, job.peer, s.tokens[job.bot][job.peer]); }
    hide TrimSpace, Received, Arrived;
  }

  lemma OtherRemembers(u: Setup, s: State, e: Event)
    requires Shape(u, s) && Enabled(u, s, e) && !e.Arrive? && !e.Reply?
    ensures Step(u, s, e).tokens == s.tokens
  {
    hide TrimSpace, ToolTarget, RouteOf, Plain, Outgoing, Approvals, Waiting, MayRun, JobOf;
  }

  /** The r-th event put this token there, and no later event put any there. */
  ghost predicate LastPut(u: Setup, es: seq<Event>, bot: nat, peer: string, token: string, r: nat)
    requires IsRun(u, es)
  {
    && r < |es| && Puts(u, es, r, bot, peer, token)
    && forall q: nat, other | r < q < |es| :: !Puts(u, es, q, bot, peer, other)
  }

  lemma PutsSame(u: Setup, es: seq<Event>, r: nat, bot: nat, peer: string, token: string)
    requires IsRun(u, es) && es != [] && IsRun(u, es[..|es| - 1]) && r < |es| - 1
    ensures Puts(u, es[..|es| - 1], r, bot, peer, token) <==> Puts(u, es, r, bot, peer, token)
  {
    hide After, IsRun, Brings;
    assert es[..|es| - 1][..r] == es[..r];
  }

  lemma PutsLast(u: Setup, es: seq<Event>, bot: nat, peer: string, token: string)
    requires IsRun(u, es) && es != [] && IsRun(u, es[..|es| - 1])
    ensures var n := |es| - 1;
      Puts(u, es, n, bot, peer, token) <==> PutsNow(After(u, es[..n]), es[n], bot, peer, token)
  {
    PrefixIsRun(u, es, |es| - 1);
    hide After, IsRun, Brings;
  }

  /** In every run the token a bot remembers for a peer is the one put there last, by an arrival or by a reply
      to a job that carries one; and none is remembered exactly when none was ever put there. */
  lemma {:induction false} RememberedIsLastPut(u: Setup, es: seq<Event>, bot: nat, peer: string)
    requires ValidSetup(u) && IsRun(u, es) && bot < |u.labels|
    ensures RemembersLast(u, es, bot, peer, Remembered(After(u, es), bot, peer))
  {
    hide Genuine, PeersOk, Step, Enabled, PutsNow, Puts, ValidSetup, Remembered;
    if es == [] {
      NoTokens(u, bot, peer);
    } else {
      var before := es[..|es| - 1];
      RememberedIsLastPut(u, before, bot, peer);
      LastSets(u, es, before, bot, peer);
      hide RemembersLast, Sets, After;
      LastPutMore(u, es, before, bot, peer,
                  Remembered(After(u, before), bot, peer), Remembered(After(u, es), bot, peer));
    }
  }

  ghost predicate RemembersLast(u: Setup, es: seq<Event>, bot: nat, peer: string, m: Option<string>)
    requires IsRun(u, es)
  {
    match m
    case None => forall r: nat, token | r < |es| :: !Puts(u, es, r, bot, peer, token)
    case Some(token) => exists r: nat :: LastPut(u, es, bot, peer, token, r)
  }

  /** From `m` the r-th event makes `after` the token remembered: the one it puts, or none. */
  ghost predicate Sets(u: Setup, es: seq<Event>, r: nat, bot: nat, peer: string,
                       m: Option<string>, after: Option<string>)
    requires IsRun(u, es) && r < |es|
  {
    && (forall token | Puts(u, es, r, bot, peer, token) :: after == Some(token))
    && (PutsNothing(u, es, r, bot, peer) ==> after == m)
  }

  ghost predicate PutsNothing(u: Setup, es: seq<Event>, r: nat, bot: nat, peer: string)
    requires IsRun(u, es) && r < |es|
  {
    forall token :: !Puts(u, es, r, bot, peer, token)
  }

  lemma LastSets(u: Setup, es: seq<Event>, before: seq<Event>, bot: nat, peer: string)
    requires ValidSetup(u) && bot < |u.labels|
    requires IsRun(u, es) && es != [] && before == es[..|es| - 1] && IsRun(u, before)
    ensures Sets(u, es, |es| - 1, bot, peer,
                 Remembered(After(u, before), bot, peer), Remembered(After(u, es), bot, peer))
  {
    var s, e := After(u, before), es[|es| - 1];
    GenuineAlways(u, before);
    StepRemembers(u, before, s, e, bot, peer);
    hide Genuine, PeersOk, Step, Enabled, PutsNow, Puts, ValidSetup, Remembered;
    forall token ensures Puts(u, es, |es| - 1, bot, peer, token) <==> PutsNow(s, e, bot, peer, token) {
      PutsLast(u, es, bot, peer, token);
    }
  }

  lemma LastPutMore(u: Setup, es: seq<Event>, before: seq<Event>, bot: nat, peer: string,
                    m: Option<string>, after: Option<string>)
    requires IsRun(u, es) && es != [] && before == es[..|es| - 1] && IsRun(u, before)
    requires RemembersLast(u, before, bot, peer, m) && Sets(u, es, |es| - 1, bot, peer, m, after)
    ensures RemembersLast(u, es, bot, peer, after)
  {
    hide Puts, IsRun, LastPut;
    if !PutsNothing(u, es, |es| - 1, bot, peer) {
      var token :| Puts(u, es, |es| - 1, bot, peer, token);
      LastPutIsLast(u, es, bot, peer, token);
    } else if m.Some? {
      var r: nat :| LastPut(u, before, bot, peer, m.value, r);
      LastPutStays(u, es, before, bot, peer, m.value, r);
    } else {
      NonePutStays(u, es, before, bot, peer);
    }
  }

  lemma LastPutIsLast(u: Setup, es: seq<Event>, bot: nat, peer: string, token: string)
    requires IsRun(u, es) && es != [] && Puts(u, es, |es| - 1, bot, peer, token)
    ensures LastPut(u, es, bot, peer, token, |es| - 1)
  {
    hide Puts, IsRun;
  }

  lemma LastPutStays(u: Setup, es: seq<Event>, before: seq<Event>, bot: nat, peer: string, token: string, r: nat)
    requires IsRun(u, es) && es != [] && before == es[..|es| - 1] && IsRun(u, before)
    requires PutsNothing(u, es, |es| - 1, bot, peer) && LastPut(u, before, bot, peer, token, r)
    ensures LastPut(u, es, bot, peer, token, r)
  {
    hide Puts, IsRun;
    PutsSame(u, es, r, bot, peer, token);
    forall q: nat, other | r < q < |es| ensures !Puts(u, es, q, bot, peer, other) {
      if q < |es| - 1 { PutsSame(u, es, q, bot, peer, other); }
    }
  }

  lemma NonePutStays(u: Setup, es: seq<Event>, before: seq<Event>, bot: nat, peer: string)
    requires IsRun(u, es) && es != [] && before == es[..|es| - 1] && IsRun(u, before)
    requires PutsNothing(u, es, |es| - 1, bot, peer)
    requires forall r: nat, token | r < |before| :: !Puts(u, before, r, bot, peer, token)
    ensures forall r: nat, token | r < |es| :: !Puts(u, es, r, bot, peer, token)
  {
    hide Puts, IsRun;
    forall r: nat, token | r < |es| ensures !Puts(u, es, r, bot, peer, token) {
      if r < |es| - 1 { PutsSame(u, es, r, bot, peer, token); }
    }
  }

  lemma NoTokens(u: Setup, bot: nat, peer: string)
    requires bot < |u.labels|
    ensures Remembered(After(u, []), bot, peer) == None
  {
  }

  /** The k-th event brought the newest token received from this peer. */
  ghost predicate NewestFrom(es: seq<Event>, bot: nat, peer: string, token: string, k: nat) {
    && k < |es| && Brings(es[k], bot, peer, token)
    && forall q: nat, other | k < q < |es| :: !Brings(es[q], bot, peer, other)
  }

  /** A bot remembers the newest token received from a peer exactly when every reply since its arrival that
      went to a job of the chat carrying another token was followed by one to a job carrying this one. */
  lemma NewestIff(u: Setup, es: seq<Event>, bot: nat, peer: string, token: string, k: nat)
    requires ValidSetup(u) && IsRun(u, es) && bot < |u.labels| && NewestFrom(es, bot, peer, token, k)
    ensures Remembered(After(u, es), bot, peer) == Some(token) <==>
      forall r: nat, other | k < r < |es| && other != token && Carries(u, es, r, bot, peer, other) ::
        exists q: nat :: r < q < |es| && Carries(u, es, q, bot, peer, token)
  {
    hide After, Carries, Brings, Remembered, ValidSetup, IsRun;
    RememberedIsLastPut(u, es, bot, peer);
    assert Puts(u, es, k, bot, peer, token);
    var m := Remembered(After(u, es), bot, peer).value;
    var last: nat :| LastPut(u, es, bot, peer, m, last);
    OneTokenPerArrival(es, k, bot, peer, token);
    ArrivalIsNoReply(u, es, k, bot, peer, token);
    assert last >= k;
    if m == token {
      forall r: nat, other | k < r < |es| && other != token && Carries(u, es, r, bot, peer, other)
        ensures exists q: nat :: r < q < |es| && Carries(u, es, q, bot, peer, token)
      {
        OneTokenPerReply(u, es, r, bot, peer, other);
        assert Puts(u, es, r, bot, peer, other);
        assert r < last && Carries(u, es, last, bot, peer, token);
      }
    } else {
      assert last > k && Carries(u, es, last, bot, peer, m);
      forall q: nat | last < q < |es| ensures !Carries(u, es, q, bot, peer, token) {
        assert !Puts(u, es, q, bot, peer, token);
      }
    }
  }

  lemma OneTokenPerArrival(es: seq<Event>, k: nat, bot: nat, peer: string, token: string)
    requires k < |es| && Brings(es[k], bot, peer, token)
    ensures forall other | Brings(es[k], bot, peer, other) :: other == token
  {
  }

  lemma ArrivalIsNoReply(u: Setup, es: seq<Event>, k: nat, bot: nat, peer: string, token: string)
    requires IsRun(u, es) && k < |es| && Brings(es[k], bot, peer, token)
    ensures forall other :: !Carries(u, es, k, bot, peer, other)
  {
    hide IsRun, After;
  }

  lemma OneTokenPerReply(u: Setup, es: seq<Event>, r: nat, bot: nat, peer: string, token: string)
    requires IsRun(u, es) && r < |es| && Carries(u, es, r, bot, peer, token)
    ensures forall other | Puts(u, es, r, bot, peer, other) :: other == token
  {
    hide IsRun, After;
  }

  // ----------------------------------------------------------- an older token comes back

  lemma Extend(u: Setup, es: seq<Event>, e: Event)
    requires IsRun(u, es) && Enabled(u, After(u, es), e)
    ensures IsRun(u, es + [e]) && After(u, es + [e]) == Step(u, After(u, es), e)
  {
    hide Step, Enabled;
    assert (es + [e])[..|es|] == es;
  }

  lemma BeginsIdle(u: Setup)
    ensures IsRun(u, []) && After(u, []) == Init(u)
  {
  }

  /** The first message of a run is never a duplicate. */
  lemma FirstGoesOn(u: Setup, bot: nat, m: Message)
    requires bot < |u.labels| && Direct(m) && !Blank(m.body)
    ensures Enabled(u, Init(u), Arrive(0, bot, m)) && GoesOn(u, Init(u), Arrive(0, bot, m))
  {
    hide TrimSpace, ScopedKey, MessageKey, Direct;
  }

  /** The state after a run's first message arrived. */
  lemma FirstArrived(u: Setup, bot: nat, m: Message)
    requires bot < |u.labels| && Direct(m) && !Blank(m.body)
    ensures IsRun(u, [Arrive(0, bot, m)])
    ensures var s := After(u, [Arrive(0, bot, m)]);
      && s.handling == map[bot := Handling(m, 0)] && s.jobs == [] && s.replied == {}
      && s.approvals == Rendezvous.INIT
  {
    var a := Arrive(0, bot, m);
    BeginsIdle(u);
    FirstGoesOn(u, bot, m);
    Jobs.ArriveStep(u, Init(u), a);
    StepReplied(u, Init(u), a);
    hide Step, After, IsRun, Direct, GoesOn;
    Extend(u, [], a);
    assert [] + [a] == [a];
  }

  /** A message that becomes a job at once: the run up to its resolution. */
  lemma FirstJob(u: Setup, bot: nat, m: Message) returns (es: seq<Event>)
    requires ValidSetup(u) && bot < |u.labels| && Direct(m) && !Blank(m.body) && MayRun(u, bot, m)
    ensures es == [Arrive(0, bot, m), Resolve(bot)] && IsRun(u, es)
    ensures var s := After(u, es);
      s.jobs == [JobOf(u, bot, m)] && s.replied == {} && s.handling == map[] && s.approvals.lookups == []
  {
    hide Step, After, IsRun, Direct, JobOf, MayRun, TrimSpace, WaitKey;
    var a, r := Arrive(0, bot, m), Resolve(bot);
    FirstArrived(u, bot, m);
    var s1 := After(u, [a]);
    assert Enabled(u, s1, r) && !Waiting(u, s1, bot, m);
    hide Waiting, Enabled;
    Jobs.ResolveStep(u, s1, bot);
    Jobs.ResolveBooks(u, s1, bot);
    StepReplied(u, s1, r);
    Extend(u, [a], r);
    es := [a] + [r];
  }

  lemma StepReplied(u: Setup, s: State, e: Event)
    requires Shape(u, s) && Enabled(u, s, e) && (e.Arrive? || e.Resolve?)
    ensures Step(u, s, e).replied == s.replied
  {
    hide TrimSpace, Judge, DedupCall, Waiting, MayRun, JobOf, Approvals, Direct;
  }

  /** A second message while the job of the first waits. */
  lemma SecondArrives(u: Setup, bot: nat, first: Message, second: Message) returns (es: seq<Event>)
    requires ValidSetup(u) && bot < |u.labels| && Direct(first) && !Blank(first.body) && MayRun(u, bot, first)
    ensures es == [Arrive(0, bot, first), Resolve(bot), Arrive(0, bot, second)] && IsRun(u, es)
    ensures After(u, es).jobs == [JobOf(u, bot, first)] && After(u, es).replied == {}
  {
    hide Step, Direct, JobOf, MayRun, IsRun, ValidSetup;
    var b := Arrive(0, bot, second);
    var before := FirstJob(u, bot, first);
    assert Enabled(u, After(u, before), b) by { hide After; }
    hide After;
    Extend(u, before, b);
    Jobs.ArriveStep(u, After(u, before), b);
    StepReplied(u, After(u, before), b);
    es := before + [b];
  }

  /** Two messages from one peer with different tokens, the second before the answer to the first: the answer
      puts the first token back. */
  lemma OlderTokenReturns(u: Setup, bot: nat, first: Message, second: Message)
    requires ValidSetup(u) && bot < |u.labels| && Direct(first) && Direct(second)
    requires !Blank(first.body) && MayRun(u, bot, first)
    requires TrimSpace(first.fromUserID) == TrimSpace(second.fromUserID)
    requires InboundToken(first) != "" && InboundToken(second) != "" && InboundToken(first) != InboundToken(second)
    ensures var es := [Arrive(0, bot, first), Resolve(bot), Arrive(0, bot, second), Reply(0, "", 0)];
      var peer, token := TrimSpace(second.fromUserID), InboundToken(second);
      IsRun(u, es) && NewestFrom(es, bot, peer, token, 2) && Remembered(After(u, es), bot, peer) != Some(token)
  {
    hide Step, After, IsRun, Direct, JobOf, MayRun, Remembered, InboundToken, TrimSpace, ValidSetup, Carries;
    var peer, token := TrimSpace(second.fromUserID), InboundToken(second);
    var r := Reply(0, "", 0);
    var before := SecondArrives(u, bot, first, second);
    Extend(u, before, r);
    var es := before + [r];
    assert es == [Arrive(0, bot, first), Resolve(bot), Arrive(0, bot, second), Reply(0, "", 0)];
    ReplyCarries(u, before, bot, first);
    hide Enabled;
    BringsIff(es[2], bot, peer);
    BringsIff(es[3], bot, peer);
    hide Brings;
    assert Brings(es[2], bot, peer, token) && NewestFrom(es, bot, peer, token, 2);
    hide NewestFrom;
    NewestIff(u, es, bot, peer, token, 2);
  }

  lemma ReplyCarries(u: Setup, before: seq<Event>, bot: nat, first: Message)
    requires bot < |u.labels| && IsRun(u, before) && IsRun(u, before + [Reply(0, "", 0)]) && |before| == 3
    requires After(u, before).jobs == [JobOf(u, bot, first)] && InboundToken(first) != ""
    ensures Carries(u, before + [Reply(0, "", 0)], 3, bot, TrimSpace(first.fromUserID), InboundToken(first))
  {
    JobFields(u, bot, first);
    PrefixIsRun(u, before + [Reply(0, "", 0)], 3);
    hide Step, After, IsRun, JobOf, InboundToken, TrimSpace;
    assert (before + [Reply(0, "", 0)])[..3] == before;
  }

  lemma JobFields(u: Setup, bot: nat, m: Message)
    requires bot < |u.labels|
    ensures var job := JobOf(u, bot, m);
      job.bot == bot && job.peer == TrimSpace(m.fromUserID) && job.token == InboundToken(m)
  {
    hide TrimSpace, TapeForPeer, MessageKey, InboundToken, BodyOf;
  }
}
