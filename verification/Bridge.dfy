/** The bridge as a whole: inbound messages become remembered tokens, answers to approvals, and jobs, and
    everything sent to a peer (replies, text tool, approval prompts) carries a context token.  A
    transition system over the steps of the polling loops, the worker, the tools and the approver. */
module Bridge {
  import opened Text
  import opened Routing
  import opened PlainText
  import opened Dedup
  import Rendezvous

  // ---------------------------------------------------------------- messages

  const TYPE_BOT := 2
  const EMPTY_BODY := "[empty or non-text message]"

  /** `body` is the text of the items; `hasRef` says whether some item refers to another message. */
  datatype Message = Message(
    groupID: string, messageType: int, fromUserID: string,
    token: string, tokenCamel: string, tokenPascal: string,
    messageID: int, seqNo: int, body: string, hasRef: bool)

  /** The first of the three spellings of the token that is not blank, trimmed. */
  function InboundToken(m: Message): (r: string)
    ensures Trimmed(r)
  {
    FirstNonBlank([m.token, m.tokenCamel, m.tokenPascal])
  }

  /** From a person, in a private chat. */
  predicate Direct(m: Message) {
    Blank(m.groupID) && m.messageType != TYPE_BOT && !Blank(m.fromUserID)
  }

  predicate Allowed(allow: seq<string>, sender: string) {
    allow == [] || exists i :: 0 <= i < |allow| && TrimSpace(allow[i]) == TrimSpace(sender)
  }

  method IsAllowedSender(allow: seq<string>, sender: string) returns (ok: bool)
    ensures ok <==> Allowed(allow, sender)
  {
    if |allow| == 0 { return true; }
    var s := TrimSpace(sender);
    for i := 0 to |allow|
      invariant forall j | 0 <= j < i :: TrimSpace(allow[j]) != s
    {
      if TrimSpace(allow[i]) == s { return true; }
    }
    ok := false;
  }

  /** The text a message stands for. */
  function BodyOf(m: Message): (r: string) {
    if Blank(m.body) then EMPTY_BODY else m.body
  }

  // ------------------------------------------------------- tokens and targets

  function WithToken(m: map<string, string>, peer: string, token: string): (r: map<string, string>) {
    if Blank(peer) || Blank(token) then m else m[TrimSpace(peer) := TrimSpace(token)]
  }

  function TokenOf(m: map<string, string>, peer: string): (r: string) {
    if TrimSpace(peer) in m then m[TrimSpace(peer)] else ""
  }

  /** A given token when it is not blank, otherwise the one remembered for the peer. */
  function Pick(m: map<string, string>, token: string, peer: string): (r: string) {
    if Blank(token) then TokenOf(m, peer) else TrimSpace(token)
  }

  datatype Job = Job(bot: nat, tape: string, peer: string, content: string, trigger: string, token: string)

  /** The job context handed to a tool: fields that are absent are empty. */
  datatype ToolContext = ToolContext(peer: string, token: string, botLabel: string)

  const NO_CONTEXT := ToolContext("", "", "")

  function JobContext(labels: seq<string>, job: Job): (r: ToolContext)
    requires job.bot < |labels|
  {
    ToolContext(job.peer, job.token, if Blank(labels[job.bot]) then "" else labels[job.bot])
  }

  datatype Args = Args(text: string, tapeName: string, peerID: string, weixinBot: string)

  datatype Target = Target(bot: nat, peer: string, token: string)

  /** The bot of a tool call made in a job's context. */
  function BotForContext(labels: seq<string>, ctx: ToolContext, sessionTape: string): (r: Option<nat>)
    ensures r.Some? ==> r.value < |labels|
  {
    if !Blank(ctx.botLabel) then BotFor(labels, TrimSpace(ctx.botLabel))
    else
      match ParseTape(sessionTape)
      case Some(route) => BotFor(labels, route.botLabel)
      case None => if Blank(sessionTape) then BotFor(labels, "") else None
  }

  /** Which bot and peer the tool's arguments name outside any job. */
  function NamedRoute(labels: seq<string>, args: Args): (r: Option<(nat, string)>)
    ensures r.Some? ==> r.value.0 < |labels|
  {
    var tape, peer, botLabel := TrimSpace(args.tapeName), TrimSpace(args.peerID), TrimSpace(args.weixinBot);
    if tape != "" && peer != "" then None
    else if tape != "" then RouteOf(labels, tape)
    else if peer == "" || (|labels| > 1 && botLabel == "") then None
    else
      match BotFor(labels, botLabel)
      case None => None
      case Some(b) => Some((b, peer))
  }

  /** Whom the text tool sends to and with which token; Err when the call is refused. */
  function ToolTarget(labels: seq<string>, tokens: seq<map<string, string>>, ctx: ToolContext, args: Args,
                      sessionTape: string): (r: Result<Target>)
    requires |tokens| == |labels|
    ensures r.Ok? ==> r.value.bot < |labels| && r.value.token != ""
  {
    if Blank(args.text) then Err
    else if ctx.peer != "" then
      if !Blank(args.tapeName) || !Blank(args.peerID) then Err
      else
        match BotForContext(labels, ctx, sessionTape)
        case None => Err
        case Some(b) =>
          var token := Pick(tokens[b], ctx.token, ctx.peer);
          if token == "" then Err else Ok(Target(b, ctx.peer, token))
    else
      match NamedRoute(labels, args)
      case None => Err
      case Some((b, peer)) =>
        var token := TokenOf(tokens[b], peer);
        if token == "" then Err else Ok(Target(b, peer, token))
  }

  datatype Sent = Sent(bot: nat, peer: string, token: string, text: string)

  /** The messages that reach the gateway: `calls` is how many send calls are made before one fails. */
  function Outgoing(bot: nat, peer: string, token: string, chunks: seq<string>, calls: nat): (r: seq<Sent>)
    ensures |r| == if calls <= |chunks| then calls else |chunks|
    ensures forall i | 0 <= i < |r| :: r[i] == Sent(bot, peer, token, chunks[i])
  {
    seq(if calls <= |chunks| then calls else |chunks|,
        i requires 0 <= i < |chunks| => Sent(bot, peer, token, chunks[i]))
  }

  // ------------------------------------------------------------------ states

  /** The bots' labels and allow lists, and the deduplicator's time to live. */
  datatype Setup = Setup(labels: seq<string>, allow: seq<seq<string>>, ttl: int)

  predicate ValidSetup(u: Setup) {
    |u.allow| == |u.labels| && AcceptedLabels(u.labels)
  }

  /** A message a bot's loop is at work on, and the number of the event in which it arrived. */
  datatype Handling = Handling(msg: Message, at: nat)

  /** The numbers of the events in which a message arrived and was resolved. */
  datatype Origin = Origin(arrived: nat, resolved: nat)

  /** Per bot the remembered tokens and the message at work on; the deduplicator's map; the approvals; every
      job ever queued and message ever sent.  `origins[j]` says where job j comes from, and `heard[l]`
      where the l-th lookup that found an approval comes from; `replied` are the jobs answered, and `count` is
      the number of events so far. */
  datatype State = State(
    tokens: seq<map<string, string>>, handling: map<nat, Handling>, seen: map<string, int>,
    approvals: Rendezvous.State, jobs: seq<Job>, sent: seq<Sent>,
    origins: seq<Origin>, heard: seq<Origin>, replied: set<nat>, count: nat)

  function Init(u: Setup): (s: State) {
    State(seq(|u.labels|, _ => map[]), map[], map[], Rendezvous.INIT, [], [], [], [], {}, 0)
  }

  /** Arrive: a loop takes a message, remembers its token and asks the deduplicator.
      Resolve: the loop then looks for a waiting approval, and else queues a job.  A loop that found one
      takes up nothing else before it has sent the reply there.
      Reply: the answer to a job goes out.
      Tool: the text tool is called, in the context of a job or (None) outside any.
      Ask: an approval of `batchN` requests (0 for a single one) is asked for on a tape.
      Prompt: the prompt of a registered wait goes out.
      Approval: any other step of the approvals. */
  datatype Event =
    | Arrive(now: int, bot: nat, msg: Message)
    | Resolve(bot: nat)
    | Reply(job: nat, output: string, calls: nat)
    | Tool(from: Option<nat>, args: Args, sessionTape: string, calls: nat)
    | Ask(tape: string, batchN: nat)
    | Prompt(w: nat, body: string, calls: nat)
    | Approval(step: Rendezvous.Event)

  predicate Shape(u: Setup, s: State) {
    && |s.tokens| == |u.labels|
    && (forall b | b in s.handling :: b < |u.labels|)
    && (forall j | 0 <= j < |s.jobs| :: s.jobs[j].bot < |u.labels|)
    && (forall w | 0 <= w < |s.approvals.waits| :: s.approvals.waits[w].bot < |u.labels|)
  }

  predicate Enabled(u: Setup, s: State, e: Event) {
    match e
    case Arrive(_, bot, _) => bot < |u.labels| && bot !in s.handling && Rendezvous.Idle(s.approvals, bot)
    case Resolve(bot) => bot in s.handling && Rendezvous.Idle(s.approvals, bot)
    case Reply(job, _, _) => job < |s.jobs| && job !in s.replied
    case Tool(from, _, _, _) => from.Some? ==> from.value < |s.jobs|
    case Ask(_, _) => true
    case Prompt(w, _, _) => w < |s.approvals.waits| && s.approvals.waits[w].phase == Rendezvous.Registered
    case Approval(step) =>
      && (step.Send? || step.Receive? || step.Lapse? || step.Unregister?)
      && Rendezvous.Enabled(u.labels, s.approvals, step)
  }

  // ------------------------------------------------------------------- steps

  /** The call an event makes to the deduplicator; an empty id is no call. */
  function DedupCall(u: Setup, e: Event): (c: Call) {
    if e.Arrive? && e.bot < |u.labels| && Direct(e.msg)
    then Call(ScopedKey(u.labels[e.bot], MessageKey(e.msg.messageID, e.msg.seqNo), |u.labels| > 1), e.now)
    else Call("", 0)
  }

  predicate Dropped(u: Setup, s: State, e: Event) {
    Judge(s.seen, u.ttl, DedupCall(u, e)).1
  }

  /** Which arrivals leave their loop with a message to resolve. */
  predicate GoesOn(u: Setup, s: State, e: Event) {
    e.Arrive? && Direct(e.msg) && !Dropped(u, s, e) && (!Blank(e.msg.body) || e.msg.hasRef)
  }

  function AfterArrive(u: Setup, s: State, e: Event): (t: State)
    requires Shape(u, s) && Enabled(u, s, e) && e.Arrive?
    ensures Shape(u, t)
  {
    if !Direct(e.msg) then s
    else
      s.(tokens := s.tokens[e.bot := WithToken(s.tokens[e.bot], e.msg.fromUserID, InboundToken(e.msg))],
         seen := Judge(s.seen, u.ttl, DedupCall(u, e)).0,
         handling := if GoesOn(u, s, e) then s.handling[e.bot := Handling(e.msg, s.count)] else s.handling)
  }

  function JobOf(u: Setup, bot: nat, m: Message): (job: Job)
    requires bot < |u.labels|
  {
    var peer := TrimSpace(m.fromUserID);
    Job(bot, TapeForPeer(peer, u.labels[bot]), peer, BodyOf(m), MessageKey(m.messageID, m.seqNo), InboundToken(m))
  }

  /** An approval is registered for the chat a message came from. */
  predicate Waiting(u: Setup, s: State, bot: nat, m: Message)
    requires bot < |u.labels|
  {
    WaitKey(u.labels[bot], TrimSpace(m.fromUserID)) in s.approvals.table
  }

  predicate MayRun(u: Setup, bot: nat, m: Message) {
    bot < |u.allow| && Allowed(u.allow[bot], TrimSpace(m.fromUserID))
  }

  function AfterResolve(u: Setup, s: State, bot: nat): (t: State)
    requires Shape(u, s) && bot in s.handling
    ensures Shape(u, t)
  {
    var h := s.handling[bot];
    var t := s.(handling := s.handling - {bot});
    var origin := Origin(h.at, s.count);
    if Waiting(u, s, bot, h.msg) then t.(heard := s.heard + [origin])
    else if MayRun(u, bot, h.msg) then t.(jobs := s.jobs + [JobOf(u, bot, h.msg)], origins := s.origins + [origin])
    else t
  }

  function AfterReply(u: Setup, s: State, j: nat, output: string, calls: nat): (t: State)
    requires Shape(u, s) && j < |s.jobs|
    ensures Shape(u, t)
  {
    var job := s.jobs[j];
    var token := Pick(s.tokens[job.bot], job.token, job.peer);
    if token == "" then s.(replied := s.replied + {j})
    else
      s.(replied := s.replied + {j}, tokens := s.tokens[job.bot := WithToken(s.tokens[job.bot], job.peer, token)],
         sent := s.sent + Outgoing(job.bot, job.peer, token, Chunks(ReplyText(output)), calls))
  }

  function ContextOf(u: Setup, s: State, from: Option<nat>): (ctx: ToolContext)
    requires Shape(u, s) && (from.Some? ==> from.value < |s.jobs|)
  {
    match from case None => NO_CONTEXT case Some(j) => JobContext(u.labels, s.jobs[j])
  }

  function AfterTool(u: Setup, s: State, ctx: ToolContext, args: Args, sessionTape: string, calls: nat): (t: State)
    requires Shape(u, s)
    ensures Shape(u, t)
  {
    hide ToolTarget;
    match ToolTarget(u.labels, s.tokens, ctx, args, sessionTape)
    case Err => s
    case Ok(to) =>
      s.(sent := s.sent + Outgoing(to.bot, to.peer, to.token, Chunks(ReplyText(TrimSpace(args.text))), calls))
  }

  function PromptToken(u: Setup, s: State, w: nat): (token: string)
    requires Shape(u, s) && w < |s.approvals.waits|
  {
    TokenOf(s.tokens[s.approvals.waits[w].bot], s.approvals.waits[w].peer)
  }

  function AfterPrompt(u: Setup, s: State, w: nat, body: string, calls: nat): (t: State)
    requires Shape(u, s) && w < |s.approvals.waits|
    ensures Shape(u, t)
  {
    var x, token := s.approvals.waits[w], PromptToken(u, s, w);
    if token == "" then s
    else s.(sent := s.sent + Outgoing(x.bot, x.peer, token, Chunks(ApprovalText(body)), calls))
  }

  /** What an event does to everything but the approvals and the count. */
  function Act(u: Setup, s: State, e: Event): (t: State)
    requires Shape(u, s) && Enabled(u, s, e)
    ensures Shape(u, t)
  {
    hide AfterArrive, AfterResolve, AfterReply, AfterTool, AfterPrompt;
    match e
    case Arrive(_, _, _) => AfterArrive(u, s, e)
    case Resolve(bot) => AfterResolve(u, s, bot)
    case Reply(j, output, calls) => AfterReply(u, s, j, output, calls)
    case Tool(from, args, sessionTape, calls) => AfterTool(u, s, ContextOf(u, s, from), args, sessionTape, calls)
    case Ask(_, _) => s
    case Prompt(w, body, calls) => AfterPrompt(u, s, w, body, calls)
    case Approval(_) => s
  }

  /** The step of the approvals that an event is, if any: resolving a message is a lookup, asking is a
      registration, and a prompt is sent or fails. */
  function ApprovalStep(u: Setup, s: State, e: Event): (r: Option<Rendezvous.Event>)
    requires Shape(u, s) && Enabled(u, s, e)
    ensures r.Some? ==> Rendezvous.Enabled(u.labels, s.approvals, r.value)
  {
    match e
    case Resolve(bot) =>
      var m := s.handling[bot].msg;
      Some(Rendezvous.LookUp(bot, TrimSpace(m.fromUserID), BodyOf(m)))
    case Ask(tape, batchN) =>
      (match RouteOf(u.labels, tape)
       case None => None
       case Some((b, peer)) => Some(Rendezvous.Register(b, peer, batchN)))
    case Prompt(w, body, calls) =>
      var goesOut := PromptToken(u, s, w) != "" && calls >= |Chunks(ApprovalText(body))|;
      Some(if goesOut then Rendezvous.PromptSent(w) else Rendezvous.PromptFailed(w))
    case Approval(step) => Some(step)
    case _ => None
  }

  function Approvals(u: Setup, s: State, e: Event): (a: Rendezvous.State)
    requires Shape(u, s) && Enabled(u, s, e)
    ensures forall w | 0 <= w < |a.waits| :: a.waits[w].bot < |u.labels|
  {
    match ApprovalStep(u, s, e)
    case None => s.approvals
    case Some(step) => Rendezvous.Step(u.labels, s.approvals, step)
  }

  function Step(u: Setup, s: State, e: Event): (t: State)
    requires Shape(u, s) && Enabled(u, s, e)
    ensures Shape(u, t)
  {
    hide Act, Approvals;
    Act(u, s, e).(approvals := Approvals(u, s, e), count := s.count + 1)
  }

  ghost predicate IsRun(u: Setup, es: seq<Event>)
    decreases |es|, 0
  {
    es == [] || (IsRun(u, es[..|es| - 1]) && Enabled(u, After(u, es[..|es| - 1]), es[|es| - 1]))
  }

  ghost function After(u: Setup, es: seq<Event>): (s: State)
    requires IsRun(u, es)
    ensures Shape(u, s)
    decreases |es|, 1
  {
    if es == [] then Init(u) else Step(u, After(u, es[..|es| - 1]), es[|es| - 1])
  }

  lemma {:induction false} PrefixIsRun(u: Setup, es: seq<Event>, k: nat)
    requires IsRun(u, es) && k <= |es|
    ensures IsRun(u, es[..k])
    ensures k < |es| ==> Enabled(u, After(u, es[..k]), es[k])
    decreases |es| - k
  {
    hide Enabled, Step;
    if k == |es| {
      assert es[..k] == es;
    } else {
      PrefixIsRun(u, es, k + 1);
      assert es[..k + 1][..k] == es[..k];
    }
  }
}
