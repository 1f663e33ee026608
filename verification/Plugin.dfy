/** The plugin as the program holds it: bots with their token stores, one deduplicator and one approver.
    Each method is one step of the bridge, or of its part that runs without interruption. */
module Plugin {
  import opened Text
  import opened Routing
  import opened PlainText
  import opened Dedup
  import opened Bridge
  import opened Approver
  import Provenance
  import Rendezvous

  class TokenStore {
    var byPeer: map<string, string>

    constructor ()
      ensures byPeer == map[]
    {
      byPeer := map[];
    }

    method Set(peer: string, token: string)
      modifies this
      ensures byPeer == WithToken(old(byPeer), peer, token)
    {
      var p, t := TrimSpace(peer), TrimSpace(token);
      if p == "" || t == "" { return; }
      byPeer := byPeer[p := t];
    }

    method Get(peer: string) returns (token: string)
      ensures token == TokenOf(byPeer, peer)
    {
      var p := TrimSpace(peer);
      token := if p in byPeer then byPeer[p] else "";
    }
  }

  /** What a bot is configured with. */
  datatype Settings = Settings(botLabel: string, gateway: string, cdn: string, token: string,
                               skRouteTag: string, channelVersion: string, accountID: string, allowFrom: seq<string>)

  class Bot {
    const settings: Settings
    const tokens: TokenStore

    constructor (settings: Settings)
      ensures this.settings == settings
      ensures fresh(tokens) && tokens.byPeer == map[]
    {
      this.settings := settings;
      tokens := new TokenStore();
    }
  }

  /** The setup that a list of bots amounts to. */
  function SetupOf(settings: seq<Settings>, ttl: int): (u: Setup)
    ensures |u.labels| == |u.allow| == |settings| && u.ttl == ttl
    ensures forall i | 0 <= i < |settings| :: u.labels[i] == settings[i].botLabel && u.allow[i] == settings[i].allowFrom
  {
    Setup(seq(|settings|, i requires 0 <= i < |settings| => settings[i].botLabel),
          seq(|settings|, i requires 0 <= i < |settings| => settings[i].allowFrom), ttl)
  }

  class WeixinPlugin {
    const bots: seq<Bot>
    const dedup: Deduper
    const approver: WeixinApprover

    constructor (bots: seq<Bot>, ttl: int, ghost settings: seq<Settings>)
      requires forall i, j | 0 <= i < j < |bots| :: bots[i].tokens != bots[j].tokens
      requires forall i | 0 <= i < |bots| :: bots[i].tokens.byPeer == map[]
      requires |settings| == |bots| && forall i | 0 <= i < |bots| :: bots[i].settings == settings[i]
      ensures Represents(SetupOf(settings, ttl), Init(SetupOf(settings, ttl)), [])
      ensures this.bots == bots && dedup.ttl == ttl
    {
      this.bots := bots;
      dedup := new Deduper(ttl);
      approver := new WeixinApprover();
    }

    function Labels(): (r: seq<string>)
      ensures |r| == |bots| && forall i | 0 <= i < |bots| :: r[i] == bots[i].settings.botLabel
    {
      seq(|bots|, i requires 0 <= i < |bots| => bots[i].settings.botLabel)
    }

    ghost function Stores(): (r: set<TokenStore>) {
      set i | 0 <= i < |bots| :: bots[i].tokens
    }

    /** The bots and their stores stand for setup `u` and these tokens. */
    ghost predicate HoldsTokens(u: Setup, tokens: seq<map<string, string>>)
      reads Stores()
    {
      && u.labels == Labels() && |u.allow| == |bots| && |tokens| == |bots|
      && (forall i, j | 0 <= i < j < |bots| :: bots[i].tokens != bots[j].tokens)
      && (forall i | 0 <= i < |bots| :: u.allow[i] == bots[i].settings.allowFrom)
      && (forall i | 0 <= i < |bots| :: bots[i].tokens in Stores() && bots[i].tokens.byPeer == tokens[i])
    }

    /** The plugin stands for setup `u` and state `s`, where `objs` are the approval waits ever made. */
    ghost predicate Represents(u: Setup, s: State, objs: seq<ApprovalWait>)
      reads dedup, Stores(), approver, objs
    {
      && HoldsTokens(u, s.tokens)
      && dedup.m == s.seen && dedup.ttl == u.ttl
      && approver.Represents(s.approvals, objs)
    }

    /** Remembering a token changes one store only. */
    method Remember(bot: nat, peer: string, token: string, ghost u: Setup, ghost tokens: seq<map<string, string>>)
      requires HoldsTokens(u, tokens) && bot < |bots|
      modifies bots[bot].tokens
      ensures HoldsTokens(u, tokens[bot := WithToken(tokens[bot], peer, token)])
    {
      hide WithToken;
      bots[bot].tokens.Set(peer, token);
    }

    method Recall(bot: nat, peer: string, ghost u: Setup, ghost tokens: seq<map<string, string>>)
      returns (token: string)
      requires HoldsTokens(u, tokens) && bot < |bots|
      ensures token == TokenOf(tokens[bot], peer)
    {
      token := bots[bot].tokens.Get(peer);
    }

    lemma Sizes(u: Setup, tokens: seq<map<string, string>>)
      requires HoldsTokens(u, tokens)
      ensures u.labels == Labels() && |u.labels| == |bots| == |tokens| == |u.allow|
      ensures forall i | 0 <= i < |bots| ::
        u.labels[i] == bots[i].settings.botLabel && u.allow[i] == bots[i].settings.allowFrom
    {
    }

    lemma Parts(u: Setup, s: State, objs: seq<ApprovalWait>)
      ensures Represents(u, s, objs) <==>
        HoldsTokens(u, s.tokens) && dedup.m == s.seen && dedup.ttl == u.ttl && approver.Represents(s.approvals, objs)
    {
    }

    /** Remembers the token of a private message and asks the deduplicator about it. */
    method TakeIn(e: Event, ghost u: Setup, ghost tokens: seq<map<string, string>>) returns (dup: bool)
      requires e.Arrive? && Direct(e.msg) && e.bot < |bots| && HoldsTokens(u, tokens) && dedup.ttl == u.ttl
      modifies dedup, bots[e.bot].tokens
      ensures HoldsTokens(u, tokens[e.bot := WithToken(tokens[e.bot], e.msg.fromUserID, InboundToken(e.msg))])
      ensures (dedup.m, dup) == Judge(old(dedup.m), u.ttl, DedupCall(u, e))
    {
      Sizes(u, tokens);
      SetIsWithToken(tokens[e.bot], e.msg.fromUserID, e.msg);
      hide TrimSpace, MessageKey, ScopedKey, Judge, WithToken, HoldsTokens, InboundToken, Labels, Direct;
      var peer, token := TrimSpace(e.msg.fromUserID), InboundToken(e.msg);
      if token != "" {
        Remember(e.bot, peer, token, u, tokens);
      } else {
        assert tokens[e.bot := tokens[e.bot]] == tokens;
      }
      var key := MessageKey(e.msg.messageID, e.msg.seqNo);
      dup := dedup.IsDuplicate(ScopedKey(bots[e.bot].settings.botLabel, key, |bots| > 1), e.now);
    }

    /** First half of handling a message: whether the loop has to resolve it. */
    method ReceiveMessage(e: Event, ghost u: Setup, ghost s: State, ghost objs: seq<ApprovalWait>)
      returns (goesOn: bool)
      requires e.Arrive? && e.bot < |bots| && Shape(u, s) && Represents(u, s, objs) && Enabled(u, s, e)
      modifies dedup, bots[e.bot].tokens
      ensures Represents(u, Step(u, s, e), objs)
      ensures goesOn <==> GoesOn(u, s, e)
    {
      hide Step, DedupCall;
      Parts(u, s, objs);
      ArriveMeans(u, s, e);
      ArriveReads(u, s, e);
      hide *;
      goesOn := false;
      if TrimSpace(e.msg.groupID) == "" && e.msg.messageType != TYPE_BOT && TrimSpace(e.msg.fromUserID) != "" {
        var dup := TakeIn(e, u, s.tokens);
        goesOn := !dup && (TrimSpace(e.msg.body) != "" || e.msg.hasRef);
      }
      Parts(u, Step(u, s, e), objs);
    }

    /** The approval that hears a message, or the job it becomes, or neither. */
    method LookUpOrQueue(bot: nat, msg: Message, ghost u: Setup, ghost tokens: seq<map<string, string>>,
                         ghost a: Rendezvous.State, ghost objs: seq<ApprovalWait>)
      returns (entry: ApprovalWait?, job: Option<Job>)
      requires HoldsTokens(u, tokens) && bot < |bots| == |u.labels|
      requires approver.Represents(a, objs) && Rendezvous.Idle(a, bot)
      ensures approver.Represents(
        Rendezvous.Step(u.labels, a, Rendezvous.LookUp(bot, TrimSpace(msg.fromUserID), BodyOf(msg))), objs)
      ensures entry != null <==> WaitKey(u.labels[bot], TrimSpace(msg.fromUserID)) in a.table
      ensures job == if entry == null && MayRun(u, bot, msg) then Some(JobOf(u, bot, msg)) else None
    {
      Sizes(u, tokens);
      hide TrimSpace, MessageKey, WaitKey, TapeForPeer, Rendezvous.Step, HoldsTokens, InboundToken, Labels;
      hide Rendezvous.Idle, WeixinApprover.Represents, Allowed;
      var peer := TrimSpace(msg.fromUserID);
      var body := if TrimSpace(msg.body) == "" then EMPTY_BODY else msg.body;
      job := None;
      entry := approver.LookUp(bot, peer, body, Labels(), a, objs);
      if entry != null { return; }
      var allowed := IsAllowedSender(bots[bot].settings.allowFrom, peer);
      if !allowed { return; }
      job := Some(Job(bot, TapeForPeer(peer, bots[bot].settings.botLabel), peer, body,
                      MessageKey(msg.messageID, msg.seqNo), InboundToken(msg)));
    }

    /** Second half of handling a message. */
    method ResolveMessage(bot: nat, msg: Message, ghost u: Setup, ghost s: State, ghost objs: seq<ApprovalWait>)
      returns (entry: ApprovalWait?, job: Option<Job>)
      requires Shape(u, s) && Represents(u, s, objs) && Enabled(u, s, Resolve(bot)) && msg == s.handling[bot].msg
      ensures var t := Step(u, s, Resolve(bot));
        && Represents(u, t, objs)
        && t.jobs == s.jobs + (if job.Some? then [job.value] else [])
        && (entry != null <==> Waiting(u, s, bot, msg))
        && (entry != null ==> job.None?)
    {
      hide Step, Waiting, MayRun, JobOf, BodyOf, WaitKey, TrimSpace, Rendezvous.Step, WeixinApprover.Represents;
      Sizes(u, s.tokens);
      ResolveMeans(u, s, bot);
      WaitingReads(u, s, bot, msg);
      entry, job := LookUpOrQueue(bot, msg, u, s.tokens, s.approvals, objs);
    }

    /** Text to one peer, cut into messages; `net(k)` says whether the k-th send succeeds. */
    method SendTextToPeer(bot: nat, peer: string, token: string, text: string, net: nat -> bool)
      returns (sent: seq<Sent>, ok: bool)
      ensures sent == Outgoing(bot, peer, token, Chunks(ReplyText(text)), |sent|)
      ensures ok <==> |sent| == |Chunks(ReplyText(text))|
      ensures ok || !net(|sent|)
    {
      hide Plain;
      var parts;
      parts, ok := SendPlainTextChunks(text, net);
      sent := seq(|parts|, i requires 0 <= i < |parts| => Sent(bot, peer, token, parts[i]));
    }

    /** A reply goes out with the given token or the remembered one, which is then the one remembered. */
    method SendReply(job: Job, output: string, net: nat -> bool, ghost u: Setup, ghost tokens: seq<map<string, string>>)
      returns (sent: seq<Sent>, ok: bool)
      requires job.bot < |bots| && HoldsTokens(u, tokens)
      modifies bots[job.bot].tokens
      ensures var token := Pick(tokens[job.bot], job.token, job.peer);
        && (token == "" ==> HoldsTokens(u, tokens) && sent == [])
        && (token != "" ==>
              && HoldsTokens(u, tokens[job.bot := WithToken(tokens[job.bot], job.peer, token)])
              && sent == Outgoing(job.bot, job.peer, token, Chunks(ReplyText(output)), |sent|))
    {
      hide TrimSpace, Plain, WithToken, TokenOf, Outgoing;
      var token := TrimSpace(job.token);
      if token == "" { token := Recall(job.bot, job.peer, u, tokens); }
      if token == "" { return [], false; }
      Remember(job.bot, job.peer, token, u, tokens);
      sent, ok := SendTextToPeer(job.bot, job.peer, token, output, net);
    }

    /** The answer to a job goes to its peer. */
    method ReplyAgentOutput(job: Job, output: string, net: nat -> bool, ghost j: nat, ghost u: Setup, ghost s: State,
                            ghost objs: seq<ApprovalWait>)
      returns (sent: seq<Sent>, ok: bool)
      requires job.bot < |bots| && Shape(u, s) && Represents(u, s, objs) && Enabled(u, s, Reply(j, output, 0))
      requires job == s.jobs[j]
      modifies bots[job.bot].tokens
      ensures var t := Step(u, s, Reply(j, output, |sent|));
        Represents(u, t, objs) && t.sent == s.sent + sent
    {
      hide Step;
      Parts(u, s, objs);
      Sizes(u, s.tokens);
      forall calls { ReplyMeans(u, s, j, output, calls); }
      hide *;
      sent, ok := SendReply(job, output, net, u, s.tokens);
      Parts(u, Step(u, s, Reply(j, output, |sent|)), objs);
    }

    method BotForToolContext(ctx: ToolContext, sessionTape: string) returns (r: Option<nat>)
      ensures r == BotForContext(Labels(), ctx, sessionTape)
    {
      if TrimSpace(ctx.botLabel) != "" {
        r := BotByTapeLabel(Labels(), TrimSpace(ctx.botLabel));
        return;
      }
      var route := ParseTape(sessionTape);
      if route.None? && TrimSpace(sessionTape) != "" { return None; }
      r := BotByTapeLabel(Labels(), if route.Some? then route.value.botLabel else "");
    }

    /** Which bot and peer the arguments name outside any job. */
    method NamedTarget(args: Args) returns (r: Option<(nat, string)>)
      ensures r == NamedRoute(Labels(), args)
    {
      hide TrimSpace, ParseTape, BotFor;
      var tape, peer, botLabel := TrimSpace(args.tapeName), TrimSpace(args.peerID), TrimSpace(args.weixinBot);
      if tape != "" && peer != "" { return None; }
      var to: string, hint: string;
      if tape != "" {
        var route := ParseTape(tape);
        if route.None? { return None; }
        to, hint := route.value.peer, route.value.botLabel;
      } else if peer != "" {
        to, hint := peer, botLabel;
        if |bots| > 1 && hint == "" { return None; }
      } else {
        return None;
      }
      var b := BotByTapeLabel(Labels(), hint);
      r := if b.None? then None else Some((b.value, to));
    }

    /** The text tool, for any context: refused exactly when it has no target, and else sent there.  With a
        job's own context, or with none, it is a step of the bridge. */
    method ExecSendText(args: Args, ctx: ToolContext, sessionTape: string, net: nat -> bool,
                        ghost u: Setup, ghost s: State)
      returns (sent: seq<Sent>, refused: bool)
      requires Shape(u, s) && HoldsTokens(u, s.tokens)
      ensures refused <==> ToolTarget(u.labels, s.tokens, ctx, args, sessionTape).Err?
      ensures AfterTool(u, s, ctx, args, sessionTape, |sent|) == s.(sent := s.sent + sent)
      ensures forall from: Option<nat> | (from.Some? ==> from.value < |s.jobs|) && ctx == ContextOf(u, s, from) ::
        Act(u, s, Tool(from, args, sessionTape, |sent|)) == s.(sent := s.sent + sent)
    {
      hide TrimSpace, Plain, BotForContext, NamedRoute;
      sent, refused := [], true;
      var text := TrimSpace(args.text);
      if text == "" { return; }
      var b: nat, peer: string, token: string;
      if ctx.peer != "" {
        if TrimSpace(args.tapeName) != "" || TrimSpace(args.peerID) != "" { return; }
        var found := BotForToolContext(ctx, sessionTape);
        if found.None? { return; }
        b, peer := found.value, ctx.peer;
        token := TrimSpace(ctx.token);
        if token == "" { token := bots[b].tokens.Get(peer); }
      } else {
        var found := NamedTarget(args);
        if found.None? { return; }
        b, peer := found.value.0, found.value.1;
        token := bots[b].tokens.Get(peer);
      }
      if token == "" { return; }
      refused := false;
      var ok;
      sent, ok := SendTextToPeer(b, peer, token, text, net);
    }

    /** The bot and the peer of a tape. */
    method RouteTape(tape: string) returns (r: Option<(nat, string)>)
      ensures r == RouteOf(Labels(), tape)
    {
      hide TrimSpace, ParseTape, BotFor;
      var route := ParseTape(tape);
      if route.None? { return None; }
      var b := BotByTapeLabel(Labels(), route.value.botLabel);
      r := if b.None? then None else Some((b.value, route.value.peer));
    }

    /** Asking for an approval: nothing when the tape leads nowhere, refused when one is pending for the chat,
        and otherwise a fresh wait is registered there. */
    method AskApproval(tape: string, batchN: nat, ghost u: Setup, ghost s: State, ghost objs: seq<ApprovalWait>)
      returns (entry: ApprovalWait?, ghost objs': seq<ApprovalWait>)
      requires Shape(u, s) && Represents(u, s, objs)
      modifies approver
      ensures Represents(u, Step(u, s, Ask(tape, batchN)), objs')
      ensures entry != null <==> RouteOf(u.labels, tape).Some? && var (b, peer) := RouteOf(u.labels, tape).value;
        WaitKey(u.labels[b], peer) !in s.approvals.table
      ensures entry != null ==> fresh(entry) && objs' == objs + [entry] && entry.batchN == batchN
    {
      hide Step;
      Parts(u, s, objs);
      Sizes(u, s.tokens);
      AskMeans(u, s, tape, batchN);
      hide *;
      entry, objs' := null, objs;
      var to := RouteTape(tape);
      if to.Some? {
        var refusal;
        entry, refusal, objs' := approver.Register(to.value.0, to.value.1, batchN, Labels(), s.approvals, objs);
      }
      Parts(u, Step(u, s, Ask(tape, batchN)), objs');
    }

    /** The prompt of a registered wait: sent when a token is remembered for its peer. */
    method SendApprovalPrompt(bot: nat, peer: string, body: string, net: nat -> bool, ghost w: nat, ghost u: Setup,
                              ghost s: State, ghost objs: seq<ApprovalWait>)
      returns (sent: seq<Sent>, ok: bool)
      requires Shape(u, s) && Represents(u, s, objs) && Enabled(u, s, Prompt(w, body, 0))
      requires bot == s.approvals.waits[w].bot && peer == s.approvals.waits[w].peer
      ensures var t := Step(u, s, Prompt(w, body, |sent|));
        && Represents(u, t, objs) && t.sent == s.sent + sent
        && t.approvals.waits[w].phase == if ok then Rendezvous.Prompted else Rendezvous.Returning
    {
      hide Step;
      Parts(u, s, objs);
      Sizes(u, s.tokens);
      SilentStep(approver, u.labels, s.approvals, Rendezvous.PromptSent(w), objs);
      SilentStep(approver, u.labels, s.approvals, Rendezvous.PromptFailed(w), objs);
      forall calls { PromptMeans(u, s, w, body, calls); }
      hide *;
      sent, ok := [], false;
      var token := Recall(bot, peer, u, s.tokens);
      if token != "" {
        sent, ok := SendTextToPeer(bot, peer, token, Truncate(body, APPROVAL_MAX), net);
      }
      Parts(u, Step(u, s, Prompt(w, body, |sent|)), objs);
    }
  }

  // ------------------------------------------- what the steps do, part by part

  lemma ArriveMeans(u: Setup, s: State, e: Event)
    requires Shape(u, s) && Enabled(u, s, e) && e.Arrive?
    ensures var t := Step(u, s, e);
      && t.approvals == s.approvals
      && (Direct(e.msg) ==>
            && t.tokens == s.tokens[e.bot := WithToken(s.tokens[e.bot], e.msg.fromUserID, InboundToken(e.msg))]
            && t.seen == Judge(s.seen, u.ttl, DedupCall(u, e)).0)
      && (!Direct(e.msg) ==> t.tokens == s.tokens && t.seen == s.seen)
  {
    hide TrimSpace, Judge, DedupCall, WithToken, GoesOn;
  }

  lemma ResolveMeans(u: Setup, s: State, bot: nat)
    requires Shape(u, s) && Enabled(u, s, Resolve(bot))
    ensures var t, m := Step(u, s, Resolve(bot)), s.handling[bot].msg;
      var look := Rendezvous.LookUp(bot, TrimSpace(m.fromUserID), BodyOf(m));
      && t.tokens == s.tokens && t.seen == s.seen
      && t.approvals == Rendezvous.Step(u.labels, s.approvals, look)
      && t.jobs == s.jobs + if !Waiting(u, s, bot, m) && MayRun(u, bot, m) then [JobOf(u, bot, m)] else []
  {
    hide TrimSpace, WaitKey, MayRun, JobOf, BodyOf, Rendezvous.Step;
  }

  lemma ArriveReads(u: Setup, s: State, e: Event)
    requires Shape(u, s) && Enabled(u, s, e) && e.Arrive?
    ensures Direct(e.msg) <==>
      TrimSpace(e.msg.groupID) == "" && e.msg.messageType != TYPE_BOT && TrimSpace(e.msg.fromUserID) != ""
    ensures var key := MessageKey(e.msg.messageID, e.msg.seqNo);
      Direct(e.msg) ==> DedupCall(u, e) == Call(ScopedKey(u.labels[e.bot], key, |u.labels| > 1), e.now)
    ensures GoesOn(u, s, e) <==>
      Direct(e.msg) && !Judge(s.seen, u.ttl, DedupCall(u, e)).1 && (TrimSpace(e.msg.body) != "" || e.msg.hasRef)
  {
    hide TrimSpace, Judge, MessageKey, ScopedKey;
  }

  lemma WaitingReads(u: Setup, s: State, bot: nat, m: Message)
    requires bot < |u.labels|
    ensures Waiting(u, s, bot, m) <==> WaitKey(u.labels[bot], TrimSpace(m.fromUserID)) in s.approvals.table
  {
    hide TrimSpace, WaitKey;
  }

  lemma ReplyMeans(u: Setup, s: State, j: nat, output: string, calls: nat)
    requires Shape(u, s) && Enabled(u, s, Reply(j, output, 0))
    ensures var t, job := Step(u, s, Reply(j, output, calls)), s.jobs[j];
      var token := Pick(s.tokens[job.bot], job.token, job.peer);
      && t.seen == s.seen && t.approvals == s.approvals
      && (token == "" ==> t.tokens == s.tokens && t.sent == s.sent)
      && (token != "" ==>
            && t.tokens == s.tokens[job.bot := WithToken(s.tokens[job.bot], job.peer, token)]
            && t.sent == s.sent + Outgoing(job.bot, job.peer, token, Chunks(ReplyText(output)), calls))
  {
    hide TrimSpace, Pick, WithToken, Plain, Outgoing;
  }

  lemma AskMeans(u: Setup, s: State, tape: string, batchN: nat)
    requires Shape(u, s)
    ensures var t := Step(u, s, Ask(tape, batchN));
      && t.tokens == s.tokens && t.seen == s.seen
      && t.approvals == match RouteOf(u.labels, tape)
                        case None => s.approvals
                        case Some((b, peer)) =>
                          Rendezvous.Step(u.labels, s.approvals, Rendezvous.Register(b, peer, batchN))
  {
    hide TrimSpace, RouteOf, WaitKey, Rendezvous.Step;
  }

  lemma PromptMeans(u: Setup, s: State, w: nat, body: string, calls: nat)
    requires Shape(u, s) && Enabled(u, s, Prompt(w, body, 0))
    ensures var t, x := Step(u, s, Prompt(w, body, calls)), s.approvals.waits[w];
      var token, chunks := TokenOf(s.tokens[x.bot], x.peer), Chunks(ReplyText(Truncate(body, APPROVAL_MAX)));
      && t.tokens == s.tokens && t.seen == s.seen
      && t.sent == s.sent + (if token == "" then [] else Outgoing(x.bot, x.peer, token, chunks, calls))
      && var goesOut := token != "" && calls >= |chunks|;
         t.approvals.waits[w].phase == (if goesOut then Rendezvous.Prompted else Rendezvous.Returning)
         && t.approvals == Rendezvous.Step(u.labels, s.approvals,
                                           if goesOut then Rendezvous.PromptSent(w) else Rendezvous.PromptFailed(w))
  {
    hide TrimSpace, TokenOf, Plain, Outgoing;
  }

  lemma SetIsWithToken(m: map<string, string>, peer: string, msg: Message)
    ensures WithToken(m, TrimSpace(peer), InboundToken(msg)) == WithToken(m, peer, InboundToken(msg))
    ensures InboundToken(msg) == "" ==> WithToken(m, peer, "") == m
  {
    hide TrimSpace;
    TrimTwice(peer);
    Provenance.EmptyIsBlank();
  }
}
