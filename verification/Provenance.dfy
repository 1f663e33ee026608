/** Where tokens come from: whatever goes out to a peer carries a token that peer once sent. */
module Provenance {
  import opened Text
  import opened Routing
  import opened PlainText
  import opened Dedup
  import opened Bridge

  /** The token a message carries: its token field, trimmed, or when that is blank its second spelling, or when
      that is blank too its third. */
  predicate TokenIn(m: Message, token: string) {
    && token != ""
    && (token == TrimSpace(m.token)
        || (Blank(m.token) && token == TrimSpace(m.tokenCamel))
        || (Blank(m.token) && Blank(m.tokenCamel) && token == TrimSpace(m.tokenPascal)))
  }

  lemma TokenInIff(m: Message)
    ensures InboundToken(m) == "" <==> Blank(m.token) && Blank(m.tokenCamel) && Blank(m.tokenPascal)
    ensures forall token :: TokenIn(m, token) <==> token != "" && token == InboundToken(m)
  {
    hide TrimSpace;
    var all := [m.token, m.tokenCamel, m.tokenPascal];
    FirstNonBlankIs(all);
    hide FirstNonBlank;
    assert Blank(all[0]) <==> Blank(m.token);
    assert Blank(all[1]) <==> Blank(m.tokenCamel);
    assert Blank(all[2]) <==> Blank(m.tokenPascal);
  }

  /** A message of one person to the bot: not from a group, not from a bot, and from somebody. */
  predicate Private(m: Message) {
    TrimSpace(m.groupID) == "" && m.messageType != 2 && TrimSpace(m.fromUserID) != ""
  }

  /** This event is a private message in which this bot received this token from this peer. */
  predicate Brings(e: Event, bot: nat, peer: string, token: string) {
    && e.Arrive? && e.bot == bot && Private(e.msg)
    && TrimSpace(e.msg.fromUserID) == peer && TokenIn(e.msg, token)
  }

  lemma BringsIff(e: Event, bot: nat, peer: string)
    ensures forall token :: Brings(e, bot, peer, token) <==>
      e.Arrive? && e.bot == bot && Direct(e.msg) && TrimSpace(e.msg.fromUserID) == peer
      && token == InboundToken(e.msg) && token != ""
  {
    if e.Arrive? { TokenInIff(e.msg); }
    hide TrimSpace, InboundToken, TokenIn;
  }

  ghost predicate Received(es: seq<Event>, bot: nat, peer: string, token: string) {
    exists k :: 0 <= k < |es| && Brings(es[k], bot, peer, token)
  }

  /** The message a loop is at work on arrived before. */
  predicate Arrived(es: seq<Event>, bot: nat, h: Handling) {
    h.at < |es| && es[h.at].Arrive? && es[h.at].bot == bot && es[h.at].msg == h.msg && Direct(h.msg)
  }

  /** Every remembered token, every token in a job and every token sent was received. */
  ghost predicate Genuine(es: seq<Event>, s: State) {
    && (forall b, p | 0 <= b < |s.tokens| && p in s.tokens[b] :: Received(es, b, p, s.tokens[b][p]))
    && (forall b | b in s.handling :: Arrived(es, b, s.handling[b]))
    && (forall j | 0 <= j < |s.jobs| :: var x := s.jobs[j]; x.token == "" || Received(es, x.bot, x.peer, x.token))
    && (forall i | 0 <= i < |s.sent| :: var x := s.sent[i]; Received(es, x.bot, x.peer, x.token))
  }

  /** The peers of jobs and waits are trimmed, those of jobs not empty. */
  ghost predicate PeersOk(s: State) {
    && (forall j | 0 <= j < |s.jobs| :: TrimSpace(s.jobs[j].peer) == s.jobs[j].peer && s.jobs[j].peer != "")
    && (forall w | 0 <= w < |s.approvals.waits| :: TrimSpace(s.approvals.waits[w].peer) == s.approvals.waits[w].peer)
  }

  // -------------------------------------------------------------- small facts

  lemma ReceivedStays(es: seq<Event>, e: Event, bot: nat, peer: string, token: string)
    requires Received(es, bot, peer, token)
    ensures Received(es + [e], bot, peer, token)
  {
    var k :| 0 <= k < |es| && Brings(es[k], bot, peer, token);
    assert Brings((es + [e])[k], bot, peer, token);
  }

  lemma GenuineStays(es: seq<Event>, e: Event, s: State)
    requires Genuine(es, s)
    ensures Genuine(es + [e], s)
  {
    hide Received, Direct;
    forall bot: nat, peer, token | Received(es, bot, peer, token) ensures Received(es + [e], bot, peer, token) {
      ReceivedStays(es, e, bot, peer, token);
    }
  }

  lemma ReceivedIsTrimmed(es: seq<Event>, bot: nat, peer: string, token: string)
    requires Received(es, bot, peer, token)
    ensures TrimSpace(peer) == peer && TrimSpace(token) == token && token != "" && peer != ""
  {
    hide TrimSpace;
    var k :| 0 <= k < |es| && Brings(es[k], bot, peer, token);
    TrimTwice(es[k].msg.fromUserID);
    TokenInIff(es[k].msg);
    TrimmedStays(token);
  }

  /** Sending a received token more changes nothing about where tokens come from. */
  lemma OutgoingKeeps(es: seq<Event>, s: State, bot: nat, peer: string, token: string, chunks: seq<string>, calls: nat)
    requires Genuine(es, s) && Received(es, bot, peer, token)
    ensures Genuine(es, s.(sent := s.sent + Outgoing(bot, peer, token, chunks, calls)))
  {
    hide Received, Arrived;
  }

  /** The token a bot remembers for a peer was received from that peer. */
  lemma RememberedIsReceived(es: seq<Event>, s: State, bot: nat, peer: string)
    requires Genuine(es, s) && bot < |s.tokens| && TrimSpace(peer) == peer && TokenOf(s.tokens[bot], peer) != ""
    ensures Received(es, bot, peer, TokenOf(s.tokens[bot], peer))
  {
    hide TrimSpace, Received;
  }

  lemma PickIsReceived(es: seq<Event>, s: State, bot: nat, token: string, peer: string)
    requires Genuine(es, s) && bot < |s.tokens| && TrimSpace(peer) == peer
    requires token == "" || Received(es, bot, peer, token)
    requires Pick(s.tokens[bot], token, peer) != ""
    ensures Received(es, bot, peer, Pick(s.tokens[bot], token, peer))
  {
    if token != "" { ReceivedIsTrimmed(es, bot, peer, token); }
    hide Received;
    assert token == "" ==> Blank(token);
  }

  lemma Arrives(es: seq<Event>, e: Event)
    requires e.Arrive? && Direct(e.msg) && InboundToken(e.msg) != ""
    ensures Received(es + [e], e.bot, TrimSpace(e.msg.fromUserID), InboundToken(e.msg))
  {
    TokenInIff(e.msg);
    hide TrimSpace;
    assert Brings((es + [e])[|es|], e.bot, TrimSpace(e.msg.fromUserID), InboundToken(e.msg));
  }

  lemma ArrivedBrings(es: seq<Event>, bot: nat, h: Handling)
    requires Arrived(es, bot, h) && InboundToken(h.msg) != ""
    ensures Received(es, bot, TrimSpace(h.msg.fromUserID), InboundToken(h.msg))
  {
    TokenInIff(h.msg);
    hide TrimSpace;
    assert Brings(es[h.at], bot, TrimSpace(h.msg.fromUserID), InboundToken(h.msg));
  }

  lemma StoreKeeps(es: seq<Event>, s: State, bot: nat, peer: string, token: string)
    requires Genuine(es, s) && bot < |s.tokens| && Received(es, bot, peer, token)
    ensures Genuine(es, s.(tokens := s.tokens[bot := WithToken(s.tokens[bot], peer, token)]))
  {
    ReceivedIsTrimmed(es, bot, peer, token);
    hide TrimSpace, Received, Arrived;
  }

  lemma EmptyIsBlank()
    ensures TrimSpace("") == ""
  {
  }

  lemma LabelIsTrimmed(labels: seq<string>, b: nat)
    requires AcceptedLabels(labels) && b < |labels|
    ensures TrimSpace(labels[b]) == labels[b]
    ensures labels[b] == "" ==> |labels| == 1
  {
    assert Trimmed(labels[b]);
  }

  lemma RoutePeerIsTrimmed(labels: seq<string>, tape: string)
    ensures RouteOf(labels, tape).Some? ==> TrimSpace(RouteOf(labels, tape).value.1) == RouteOf(labels, tape).value.1
  {
    hide BotFor;
  }

  lemma NamedPeerIsTrimmed(labels: seq<string>, args: Args)
    requires NamedRoute(labels, args).Some?
    ensures TrimSpace(NamedRoute(labels, args).value.1) == NamedRoute(labels, args).value.1
  {
    hide TrimSpace, BotFor;
    TrimTwice(args.peerID);
    RoutePeerIsTrimmed(labels, TrimSpace(args.tapeName));
  }

  // ---------------------------------------------------------- the single steps

  lemma ArriveKeeps(u: Setup, es: seq<Event>, s: State, e: Event)
    requires Shape(u, s) && Genuine(es, s) && Enabled(u, s, e) && e.Arrive? && s.count == |es|
    ensures Genuine(es + [e], AfterArrive(u, s, e))
  {
    hide TrimSpace, Judge, Received, ScopedKey, MessageKey, DedupCall, Dropped;
    GenuineStays(es, e, s);
    var token := InboundToken(e.msg);
    if Direct(e.msg) && token != "" {
      assert Received(es + [e], e.bot, TrimSpace(e.msg.fromUserID), token) by { Arrives(es, e); }
      TrimmedStays(token);
    }
  }

  lemma ResolveKeeps(u: Setup, es: seq<Event>, s: State, bot: nat)
    requires Shape(u, s) && Genuine(es, s) && bot in s.handling
    ensures Genuine(es, AfterResolve(u, s, bot))
  {
    hide TrimSpace, Waiting, MayRun, TapeForPeer, MessageKey, Direct, Received;
    var h := s.handling[bot];
    var token := InboundToken(h.msg);
    if token != "" {
      ArrivedBrings(es, bot, h);
    }
  }

  lemma ReplyKeeps(u: Setup, es: seq<Event>, s: State, j: nat, output: string, calls: nat)
    requires Shape(u, s) && PeersOk(s) && Genuine(es, s) && j < |s.jobs|
    ensures Genuine(es, AfterReply(u, s, j, output, calls))
  {
    var job := s.jobs[j];
    var token := Pick(s.tokens[job.bot], job.token, job.peer);
    hide TrimSpace, Received, Pick, Plain, Outgoing, Arrived, WithToken;
    if token != "" {
      PickIsReceived(es, s, job.bot, job.token, job.peer);
      hide Genuine;
      StoreKeeps(es, s, job.bot, job.peer, token);
      var t := s.(tokens := s.tokens[job.bot := WithToken(s.tokens[job.bot], job.peer, token)]);
      OutgoingKeeps(es, t, job.bot, job.peer, token, Chunks(ReplyText(output)), calls);
    }
  }

  /** A tape that a lone bot without a label answers to. */
  predicate FitsLoneBot(tape: string) {
    match ParseTape(tape)
    case Some(route) => route.botLabel == ""
    case None => Blank(tape)
  }

  /** Handed a job's context, the text tool refuses or answers through that job's own bot to that job's
      own peer, with the job's token when it has one, whatever tape the session runs on; and it refuses
      under no other conditions than those listed. */
  lemma ToolKeepsToItsJob(u: Setup, s: State, job: Job, args: Args, sessionTape: string)
    requires ValidSetup(u) && Shape(u, s)
    requires job.bot < |u.labels| && job.peer != ""
    ensures var r := ToolTarget(u.labels, s.tokens, JobContext(u.labels, job), args, sessionTape);
      var token := if TrimSpace(job.token) != "" then TrimSpace(job.token)
                   else if TrimSpace(job.peer) in s.tokens[job.bot] then s.tokens[job.bot][TrimSpace(job.peer)] else "";
      && (r.Ok? ==> r.value == Target(job.bot, job.peer, token))
      && (r.Ok? <==>
            && TrimSpace(args.text) != "" && TrimSpace(args.tapeName) == "" && TrimSpace(args.peerID) == ""
            && token != ""
            && (u.labels[job.bot] != "" || FitsLoneBot(sessionTape)))
  {
    hide TrimSpace, ParseTape, ValidId;
    LabelIsTrimmed(u.labels, job.bot);
    OwnLabelFindsBot(u.labels, job.bot);
    EmptyIsBlank();
    if ParseTape(sessionTape).Some? { TrimmedStays(ParseTape(sessionTape).value.botLabel); }
  }

  /** Outside any job a bot and a peer may be named: the tool sends through that bot, to that peer, with the
      token that bot remembers for it, exactly when there is one. */
  lemma NamedBotIsUsed(labels: seq<string>, tokens: seq<map<string, string>>, b: nat, args: Args, sessionTape: string)
    requires AcceptedLabels(labels) && |tokens| == |labels| && b < |labels|
    requires TrimSpace(args.text) != "" && TrimSpace(args.tapeName) == "" && TrimSpace(args.peerID) != ""
    requires TrimSpace(args.weixinBot) == labels[b]
    ensures var peer, r := TrimSpace(args.peerID), ToolTarget(labels, tokens, NO_CONTEXT, args, sessionTape);
      && (r.Ok? <==> peer in tokens[b] && tokens[b][peer] != "")
      && (r.Ok? ==> r.value == Target(b, peer, tokens[b][peer]))
  {
    TrimTwice(args.peerID);
    LabelIsTrimmed(labels, b);
    OwnLabelFindsBot(labels, b);
    hide TrimSpace, AcceptedLabels, BotFor, RouteOf;
  }

  /** A tape may be named instead: the tool sends to the chat whose tape it is. */
  lemma NamedTapeIsUsed(labels: seq<string>, tokens: seq<map<string, string>>, b: nat, peer: string, args: Args,
                        sessionTape: string)
    requires AcceptedLabels(labels) && |tokens| == |labels| && b < |labels| && labels[b] != "p2p"
    requires TrimSpace(peer) == peer && peer != ""
    requires TrimSpace(args.text) != "" && TrimSpace(args.peerID) == ""
    requires TrimSpace(args.tapeName) == TapeForPeer(peer, labels[b])
    ensures var r := ToolTarget(labels, tokens, NO_CONTEXT, args, sessionTape);
      && (r.Ok? <==> peer in tokens[b] && tokens[b][peer] != "")
      && (r.Ok? ==> r.value == Target(b, peer, tokens[b][peer]))
  {
    TrimTwice(args.tapeName);
    IsTrimmed(peer);
    TapeRoundTrip(labels, b, peer);
    TapeNotEmpty(peer, labels[b]);
    hide TrimSpace, AcceptedLabels, BotFor, RouteOf, TapeForPeer;
  }

  lemma IsTrimmed(s: string)
    requires TrimSpace(s) == s
    ensures Trimmed(s)
  {
  }

  lemma TapeNotEmpty(peer: string, botLabel: string)
    ensures TapeForPeer(peer, botLabel) != ""
  {
  }

  /** Everything else is refused: no text; inside a job a target besides the job's; outside one two targets, or
      none, or an unknown bot, or no bot where there are several. */
  lemma OtherwiseRefused(labels: seq<string>, tokens: seq<map<string, string>>, ctx: ToolContext, args: Args,
                         sessionTape: string)
    requires AcceptedLabels(labels) && |tokens| == |labels|
    requires var tape, peer, named := TrimSpace(args.tapeName), TrimSpace(args.peerID), TrimSpace(args.weixinBot);
      || TrimSpace(args.text) == ""
      || (ctx.peer != "" && (tape != "" || peer != ""))
      || (ctx.peer == "" && tape != "" && peer != "")
      || (ctx.peer == "" && tape == "" && peer == "")
      || (ctx.peer == "" && tape == "" && named != "" && named !in labels)
      || (ctx.peer == "" && tape == "" && named == "" && |labels| > 1)
      || (ctx.peer == "" && tape != "" && ParseTape(tape).None?)
    ensures ToolTarget(labels, tokens, ctx, args, sessionTape).Err?
  {
    TrimTwice(args.weixinBot);
    hide TrimSpace, ParseTape, AcceptedLabels;
  }

  lemma TargetIsReceived(u: Setup, es: seq<Event>, s: State, from: Option<nat>, args: Args, sessionTape: string)
    requires ValidSetup(u) && Shape(u, s) && PeersOk(s) && Genuine(es, s) && (from.Some? ==> from.value < |s.jobs|)
    requires ToolTarget(u.labels, s.tokens, ContextOf(u, s, from), args, sessionTape).Ok?
    ensures var to := ToolTarget(u.labels, s.tokens, ContextOf(u, s, from), args, sessionTape).value;
      Received(es, to.bot, to.peer, to.token)
  {
    match from
    case Some(j) =>
      var job := s.jobs[j];
      ToolKeepsToItsJob(u, s, job, args, sessionTape);
      hide ToolTarget, TrimSpace, Received, Pick;
      PickIsReceived(es, s, job.bot, job.token, job.peer);
    case None =>
      hide Received, TrimSpace, RouteOf, NamedRoute;
      var (b, peer) := NamedRoute(u.labels, args).value;
      NamedPeerIsTrimmed(u.labels, args);
      RememberedIsReceived(es, s, b, peer);
  }

  lemma ToolKeeps(u: Setup, es: seq<Event>, s: State, from: Option<nat>, args: Args, sessionTape: string, calls: nat)
    requires ValidSetup(u) && Shape(u, s) && PeersOk(s) && Genuine(es, s) && (from.Some? ==> from.value < |s.jobs|)
    ensures Genuine(es, AfterTool(u, s, ContextOf(u, s, from), args, sessionTape, calls))
  {
    hide Received, TrimSpace, ToolTarget, Genuine, Plain, Outgoing, ContextOf, AcceptedLabels;
    match ToolTarget(u.labels, s.tokens, ContextOf(u, s, from), args, sessionTape)
    case Err =>
    case Ok(to) =>
      TargetIsReceived(u, es, s, from, args, sessionTape);
      OutgoingKeeps(es, s, to.bot, to.peer, to.token, Chunks(ReplyText(TrimSpace(args.text))), calls);
  }

  lemma PromptKeeps(u: Setup, es: seq<Event>, s: State, w: nat, body: string, calls: nat)
    requires Shape(u, s) && PeersOk(s) && Genuine(es, s) && w < |s.approvals.waits|
    ensures Genuine(es, AfterPrompt(u, s, w, body, calls))
  {
    var x := s.approvals.waits[w];
    hide Received, TrimSpace, Genuine, Plain, Outgoing;
    var token := PromptToken(u, s, w);
    if token != "" {
      RememberedIsReceived(es, s, x.bot, x.peer);
      OutgoingKeeps(es, s, x.bot, x.peer, token, Chunks(ApprovalText(body)), calls);
    }
  }

  lemma ActKeeps(u: Setup, es: seq<Event>, s: State, e: Event)
    requires ValidSetup(u) && Shape(u, s) && PeersOk(s) && Genuine(es, s) && Enabled(u, s, e) && s.count == |es|
    ensures Genuine(es + [e], Act(u, s, e))
  {
    hide Genuine, PeersOk, AfterArrive, AfterResolve, AfterReply, AfterTool, AfterPrompt, ValidSetup;
    match e
    case Arrive(_, _, _) => ArriveKeeps(u, es, s, e);
    case Resolve(bot) =>
      ResolveKeeps(u, es, s, bot);
      GenuineStays(es, e, AfterResolve(u, s, bot));
    case Reply(j, output, calls) =>
      ReplyKeeps(u, es, s, j, output, calls);
      GenuineStays(es, e, AfterReply(u, s, j, output, calls));
    case Tool(from, args, sessionTape, calls) =>
      ToolKeeps(u, es, s, from, args, sessionTape, calls);
      GenuineStays(es, e, AfterTool(u, s, ContextOf(u, s, from), args, sessionTape, calls));
    case Ask(_, _) => GenuineStays(es, e, s);
    case Prompt(w, body, calls) =>
      PromptKeeps(u, es, s, w, body, calls);
      GenuineStays(es, e, AfterPrompt(u, s, w, body, calls));
    case Approval(_) => GenuineStays(es, e, s);
  }

  /** A step of the approvals adds at most one wait, and then one for a tape's peer; what waits are for
      never changes. */
  lemma WaitPeersKept(u: Setup, s: State, e: Event)
    requires Shape(u, s) && PeersOk(s) && Enabled(u, s, e)
    ensures forall w | 0 <= w < |Approvals(u, s, e).waits| ::
      TrimSpace(Approvals(u, s, e).waits[w].peer) == Approvals(u, s, e).waits[w].peer
  {
    hide TrimSpace, RouteOf, BodyOf, WaitKey, Plain;
    if e.Ask? { RoutePeerIsTrimmed(u.labels, e.tape); }
  }

  lemma JobPeersKept(u: Setup, es: seq<Event>, s: State, e: Event)
    requires Shape(u, s) && PeersOk(s) && Genuine(es, s) && Enabled(u, s, e)
    ensures forall j | 0 <= j < |Act(u, s, e).jobs| ::
      TrimSpace(Act(u, s, e).jobs[j].peer) == Act(u, s, e).jobs[j].peer && Act(u, s, e).jobs[j].peer != ""
  {
    hide TrimSpace, Judge, ToolTarget, MessageKey, TapeForPeer, RouteOf, Plain, Outgoing, Received;
    if e.Resolve? { TrimTwice(s.handling[e.bot].msg.fromUserID); }
  }

  // ------------------------------------------------------------ what goes out

  /** These are the first pieces of this text, as many as were sent before a send failed, each to this peer
      through this bot with this token. */
  predicate SentAs(more: seq<Sent>, bot: nat, peer: string, token: string, text: string, calls: nat) {
    && |more| == (if calls <= |Chunks(text)| then calls else |Chunks(text)|)
    && forall i | 0 <= i < |more| :: more[i] == Sent(bot, peer, token, Chunks(text)[i])
  }

  /** The token for a peer: the given one, trimmed, or when that is blank the remembered one. */
  function TokenFor(tokens: map<string, string>, given: string, peer: string): (r: string) {
    if TrimSpace(given) != "" then TrimSpace(given)
    else if TrimSpace(peer) in tokens then tokens[TrimSpace(peer)] else ""
  }

  /** The answer to a job goes to the job's peer through the job's bot, with the job's token or else the
      remembered one, and does not go out when there is neither. */
  lemma ReplyGoesOut(u: Setup, s: State, j: nat, output: string, calls: nat)
    requires Shape(u, s) && Enabled(u, s, Reply(j, output, calls))
    ensures var t, job := Step(u, s, Reply(j, output, calls)), s.jobs[j];
      var token := TokenFor(s.tokens[job.bot], job.token, job.peer);
      && s.sent <= t.sent
      && (token == "" ==> t.sent == s.sent)
      && (token != "" ==> SentAs(t.sent[|s.sent|..], job.bot, job.peer, token, ReplyText(output), calls))
  {
    hide TrimSpace, Plain, Approvals, Chunks;
  }

  /** A prompt goes to the peer its wait is for, through that bot, with the remembered token. */
  lemma PromptGoesOut(u: Setup, s: State, w: nat, body: string, calls: nat)
    requires Shape(u, s) && Enabled(u, s, Prompt(w, body, calls))
    ensures var t, x := Step(u, s, Prompt(w, body, calls)), s.approvals.waits[w];
      var token := TokenFor(s.tokens[x.bot], "", x.peer);
      && s.sent <= t.sent
      && (token == "" ==> t.sent == s.sent)
      && (token != "" ==> SentAs(t.sent[|s.sent|..], x.bot, x.peer, token, ApprovalText(body), calls))
  {
    EmptyIsBlank();
    hide TrimSpace, Plain, Approvals, Chunks;
  }

  /** The tool's text goes where its target says. */
  lemma ToolGoesOut(u: Setup, s: State, from: Option<nat>, args: Args, sessionTape: string, calls: nat)
    requires Shape(u, s) && Enabled(u, s, Tool(from, args, sessionTape, calls))
    ensures var t, r := Step(u, s, Tool(from, args, sessionTape, calls)),
                        ToolTarget(u.labels, s.tokens, ContextOf(u, s, from), args, sessionTape);
      && s.sent <= t.sent
      && (r.Err? ==> t.sent == s.sent)
      && (r.Ok? ==>
            var text := ReplyText(TrimSpace(args.text));
            SentAs(t.sent[|s.sent|..], r.value.bot, r.value.peer, r.value.token, text, calls))
  {
    hide TrimSpace, Plain, Approvals, Chunks, ToolTarget, ContextOf;
  }

  /** Where a job and a tool call outside any stand for contexts. */
  lemma ContextIs(u: Setup, s: State, j: nat)
    requires Shape(u, s) && j < |s.jobs|
    ensures ContextOf(u, s, Some(j)) == JobContext(u.labels, s.jobs[j])
    ensures ContextOf(u, s, None) == ToolContext("", "", "")
  {
  }

  // --------------------------------------------------------------- over all runs

  lemma StartIsClean(u: Setup)
    ensures Genuine([], Init(u)) && PeersOk(Init(u)) && Init(u).count == 0
  {
  }

  lemma StepIsAct(u: Setup, es: seq<Event>, s: State, e: Event)
    requires Shape(u, s) && Enabled(u, s, e)
    ensures var t := Step(u, s, e);
      && t.approvals == Approvals(u, s, e) && t.jobs == Act(u, s, e).jobs && t.count == s.count + 1
      && (Genuine(es, Act(u, s, e)) ==> Genuine(es, t))
  {
    hide Act, Approvals, Received, Arrived;
  }

  lemma {:induction false} GenuineAlways(u: Setup, es: seq<Event>)
    requires ValidSetup(u) && IsRun(u, es)
    ensures Genuine(es, After(u, es)) && PeersOk(After(u, es)) && After(u, es).count == |es|
  {
    hide Genuine, Step, ValidSetup, Enabled, TrimSpace, Act, Approvals;
    if es == [] {
      StartIsClean(u);
    } else {
      var before, e := es[..|es| - 1], es[|es| - 1];
      assert before + [e] == es;
      GenuineAlways(u, before);
      var s := After(u, before);
      ActKeeps(u, before, s, e);
      StepIsAct(u, es, s, e);
      JobPeersKept(u, before, s, e);
      WaitPeersKept(u, s, e);
    }
  }

  /** The i-th message sent went out in the n-th event. */
  ghost predicate SentIn(u: Setup, es: seq<Event>, i: nat, n: nat)
    requires IsRun(u, es) && n < |es|
  {
    PrefixIsRun(u, es, n);
    PrefixIsRun(u, es, n + 1);
    |After(u, es[..n]).sent| <= i < |After(u, es[..n + 1]).sent|
  }

  lemma SentGrows(u: Setup, s: State, e: Event)
    requires Shape(u, s) && Enabled(u, s, e)
    ensures s.sent <= Step(u, s, e).sent
    ensures e.Arrive? ==> Step(u, s, e).sent == s.sent
  {
    hide TrimSpace, Judge, DedupCall, ToolTarget, RouteOf, Plain, Outgoing, Pick, WithToken, Approvals;
  }

  lemma SentBefore(u: Setup, es: seq<Event>, i: nat, n: nat)
    requires IsRun(u, es) && es != [] && n < |es| - 1 && IsRun(u, es[..|es| - 1]) && SentIn(u, es[..|es| - 1], i, n)
    ensures SentIn(u, es, i, n)
  {
    hide After, IsRun;
    assert es[..|es| - 1][..n] == es[..n] && es[..|es| - 1][..n + 1] == es[..n + 1];
  }

  /** In every run, whatever is sent to a peer through a bot, be it a reply, a tool's text or an approval
      prompt, carries a non-blank token that this same bot received in a private message from this same
      peer, in an event before the one in which it was sent. */
  lemma {:induction false} TokenProvenance(u: Setup, es: seq<Event>, i: nat)
    requires ValidSetup(u) && IsRun(u, es) && i < |After(u, es).sent|
    ensures var x := After(u, es).sent[i];
      && x.token != "" && Trimmed(x.token)
      && exists n, k :: 0 <= k < n < |es| && SentIn(u, es, i, n) && Brings(es[k], x.bot, x.peer, x.token)
  {
    hide Step, Brings, ValidSetup, Enabled;
    var n := |es| - 1;
    assert es != [] by { NothingSent(u); }
    var before := After(u, es[..n]);
    assert es[..n + 1] == es;
    SentGrows(u, before, es[n]);
    var x := After(u, es).sent[i];
    if i < |before.sent| {
      hide SentIn;
      TokenProvenance(u, es[..n], i);
      var m, k :| 0 <= k < m < n && SentIn(u, es[..n], i, m) && Brings(es[..n][k], x.bot, x.peer, x.token);
      SentBefore(u, es, i, m);
      assert Brings(es[k], x.bot, x.peer, x.token);
    } else {
      GenuineAlways(u, es);
      assert SentIn(u, es, i, n);
      hide After, IsRun, SentIn;
      ReceivedIsTrimmed(es, x.bot, x.peer, x.token);
      var k :| 0 <= k < |es| && Brings(es[k], x.bot, x.peer, x.token);
      BringsArrives(es[k], x.bot, x.peer, x.token);
    }
  }

  lemma BringsArrives(e: Event, bot: nat, peer: string, token: string)
    requires Brings(e, bot, peer, token)
    ensures e.Arrive?
  {
  }

  lemma NothingSent(u: Setup)
    ensures After(u, []).sent == []
  {
  }
}
