/** The approval rendezvous: a waiter registers a one-slot channel under a key, polling loops look the
    entry up, release the lock and send to its channel later.  A transition system over all interleavings. */
module Rendezvous {
  import opened Text
  import opened ApprovalParser
  import opened Routing

  // ------------------------------------------------------------------ states

  /** Registered: in the table, prompt not sent yet.  Prompted: waiting on the channel.
      Returning: result decided, deferred delete not run yet.  Returned: entry removed. */
  datatype Phase = Registered | Prompted | Returning | Returned

  /** How a wait ended: no reply in time (or no prompt could be sent), or a reply taken from the channel. */
  datatype Outcome = Pending | Lapsed | Got(reply: Reply)

  /** `offers` records the lookups whose replies were sent to this wait's channel, in order. */
  datatype Wait = Wait(bot: nat, peer: string, batchN: nat, phase: Phase, ch: seq<Reply>, outcome: Outcome,
                       since: nat, until: nat, offers: seq<nat>)

  /** A message whose lookup found an entry: from whom, what, which wait, and when. */
  datatype Lookup = Lookup(bot: nat, peer: string, content: string, entry: nat, at: nat, sent: bool)

  datatype State = State(now: nat, table: map<string, nat>, waits: seq<Wait>, lookups: seq<Lookup>,
                           refused: seq<Reply>)

  const INIT := State(0, map[], [], [], [])

  datatype Event =
    | Register(bot: nat, peer: string, batchN: nat)
    | PromptSent(w: nat)
    | PromptFailed(w: nat)
    | LookUp(bot: nat, peer: string, content: string)
    | Send(l: nat)
    | Receive(w: nat)
    | Lapse(w: nat)
    | Unregister(w: nat)

  /** What the caller of a wait is told. */
  function Answer(o: Outcome): (r: Reply) {
    if o.Got? then o.reply else DENIED
  }

  predicate Active(x: Wait) {
    x.phase != Returned
  }

  function Key(labels: seq<string>, x: Wait): (r: string)
    requires x.bot < |labels|
  {
    WaitKey(labels[x.bot], x.peer)
  }

  /** A send that does not block: dropped when the slot is taken. */
  function Put(ch: seq<Reply>, r: Reply): (res: seq<Reply>) {
    if |ch| < 1 then ch + [r] else ch
  }

  /** The loop of this bot has sent the reply of every entry it found: it takes up no other message before. */
  predicate Idle(s: State, bot: nat) {
    forall l | 0 <= l < |s.lookups| && s.lookups[l].bot == bot :: s.lookups[l].sent
  }

  predicate Enabled(labels: seq<string>, s: State, e: Event) {
    match e
    case Register(bot, _, _) => bot < |labels|
    case PromptSent(w) => w < |s.waits| && s.waits[w].phase == Registered
    case PromptFailed(w) => w < |s.waits| && s.waits[w].phase == Registered
    case LookUp(bot, _, _) => bot < |labels| && Idle(s, bot)
    case Send(l) => l < |s.lookups| && !s.lookups[l].sent && s.lookups[l].entry < |s.waits|
    case Receive(w) => w < |s.waits| && s.waits[w].phase == Prompted && s.waits[w].ch != []
    case Lapse(w) => w < |s.waits| && s.waits[w].phase == Prompted
    case Unregister(w) => w < |s.waits| && s.waits[w].phase == Returning && s.waits[w].bot < |labels|
  }

  function Step(labels: seq<string>, s: State, e: Event): (r: State)
    requires Enabled(labels, s, e)
  {
    var t := s.(now := s.now + 1);
    match e
    case Register(bot, peer, batchN) =>
      var k := WaitKey(labels[bot], peer);
      if k in s.table then t.(refused := s.refused + [DENIED])
      else t.(table := s.table[k := |s.waits|],
              waits := s.waits + [Wait(bot, peer, batchN, Registered, [], Pending, s.now, 0, [])])
    case PromptSent(w) => t.(waits := s.waits[w := s.waits[w].(phase := Prompted)])
    case PromptFailed(w) => t.(waits := s.waits[w := s.waits[w].(phase := Returning, outcome := Lapsed)])
    case LookUp(bot, peer, content) =>
      var k := WaitKey(labels[bot], peer);
      if k !in s.table then t
      else t.(lookups := s.lookups + [Lookup(bot, peer, content, s.table[k], s.now, false)])
    case Send(l) =>
      var x := s.lookups[l];
      var y := s.waits[x.entry];
      t.(lookups := s.lookups[l := x.(sent := true)],
         waits := s.waits[x.entry := y.(ch := Put(y.ch, ParseFor(y.batchN, x.content)), offers := y.offers + [l])])
    case Receive(w) =>
      var y := s.waits[w];
      t.(waits := s.waits[w := y.(phase := Returning, outcome := Got(y.ch[0]), ch := y.ch[1..])])
    case Lapse(w) => t.(waits := s.waits[w := s.waits[w].(phase := Returning, outcome := Lapsed)])
    case Unregister(w) =>
      t.(table := s.table - {Key(labels, s.waits[w])},
         waits := s.waits[w := s.waits[w].(phase := Returned, until := s.now)])
  }

  // -------------------------------------------------------------------- runs

  ghost predicate IsRun(labels: seq<string>, es: seq<Event>)
    decreases |es|, 0
  {
    es == [] || (IsRun(labels, es[..|es| - 1]) && Enabled(labels, After(labels, es[..|es| - 1]), es[|es| - 1]))
  }

  ghost function After(labels: seq<string>, es: seq<Event>): (r: State)
    requires IsRun(labels, es)
    decreases |es|, 1
  {
    if es == [] then INIT else Step(labels, After(labels, es[..|es| - 1]), es[|es| - 1])
  }

  // --------------------------------------------------------------- invariant

  /** The table holds exactly the waits that have not returned, each under its own key. */
  ghost predicate TableOk(labels: seq<string>, s: State) {
    && (forall w | 0 <= w < |s.waits| :: s.waits[w].bot < |labels|)
    && (forall k | k in s.table ::
          s.table[k] < |s.waits| && Active(s.waits[s.table[k]]) && Key(labels, s.waits[s.table[k]]) == k)
    && (forall w | 0 <= w < |s.waits| && Active(s.waits[w]) ::
          Key(labels, s.waits[w]) in s.table && s.table[Key(labels, s.waits[w])] == w)
  }

  ghost predicate TimesOk(s: State) {
    forall w | 0 <= w < |s.waits| ::
      s.waits[w].since < s.now && (s.waits[w].phase == Returned ==> s.waits[w].since < s.waits[w].until < s.now)
  }

  /** An entry found by a lookup belonged to the same key and was registered at that moment. */
  ghost predicate LookupOk(labels: seq<string>, s: State, x: Lookup)
    requires forall w | 0 <= w < |s.waits| :: s.waits[w].bot < |labels|
  {
    && x.entry < |s.waits| && x.bot < |labels|
    && WaitKey(labels[x.bot], x.peer) == Key(labels, s.waits[x.entry])
    && s.waits[x.entry].since < x.at < s.now
    && (s.waits[x.entry].phase == Returned ==> x.at < s.waits[x.entry].until)
  }

  /** The reply a lookup makes: its text as the wait it found understands it. */
  function Heard(s: State, w: nat, l: nat): (r: Reply)
    requires w < |s.waits| && l < |s.lookups|
  {
    ParseFor(s.waits[w].batchN, s.lookups[l].content)
  }

  /** The slot holds the first reply offered until it is taken; only that one can be the outcome. */
  ghost predicate ChannelOk(s: State, w: nat)
    requires w < |s.waits|
  {
    var y := s.waits[w];
    && (forall i | 0 <= i < |y.offers| ::
          y.offers[i] < |s.lookups| && s.lookups[y.offers[i]].entry == w && s.lookups[y.offers[i]].sent)
    && |y.ch| <= 1
    && (y.outcome == Pending <==> y.phase in {Registered, Prompted})
    && (if y.outcome.Got? then y.offers != [] && y.outcome.reply == Heard(s, w, y.offers[0])
        else y.ch == if y.offers == [] then [] else [Heard(s, w, y.offers[0])])
  }

  ghost predicate Inv(labels: seq<string>, s: State) {
    && TableOk(labels, s)
    && TimesOk(s)
    && (forall l | 0 <= l < |s.lookups| :: LookupOk(labels, s, s.lookups[l]))
    && (forall w | 0 <= w < |s.waits| :: ChannelOk(s, w))
  }

  lemma RegisterKeeps(labels: seq<string>, s: State, e: Event)
    requires Inv(labels, s) && Enabled(labels, s, e) && e.Register?
    ensures Inv(labels, Step(labels, s, e))
  {
    hide WaitKey, ParseFor;
    var t := Step(labels, s, e);
    forall w | 0 <= w < |t.waits| ensures ChannelOk(t, w) {
      if w < |s.waits| { assert ChannelOk(s, w); }
    }
    hide ChannelOk;
    forall l | 0 <= l < |t.lookups| ensures LookupOk(labels, t, t.lookups[l]) {
      assert LookupOk(labels, s, s.lookups[l]);
    }
  }

  lemma LookUpKeeps(labels: seq<string>, s: State, e: Event)
    requires Inv(labels, s) && Enabled(labels, s, e) && e.LookUp?
    ensures Inv(labels, Step(labels, s, e))
  {
    hide WaitKey, ParseFor;
    var t := Step(labels, s, e);
    forall l | 0 <= l < |t.lookups| ensures LookupOk(labels, t, t.lookups[l]) {
      if l < |s.lookups| { assert LookupOk(labels, s, s.lookups[l]); }
    }
    forall w | 0 <= w < |t.waits| ensures ChannelOk(t, w) { assert ChannelOk(s, w); }
  }

  /** A send leaves the first offered reply where it is, or becomes it. */
  lemma SendChannel(labels: seq<string>, s: State, e: Event, w: nat)
    requires Enabled(labels, s, e) && e.Send? && w < |s.waits| && ChannelOk(s, w)
    ensures ChannelOk(Step(labels, s, e), w)
  {
    hide ParseFor, WaitKey;
    var t, y := Step(labels, s, e), s.waits[w];
    if w == s.lookups[e.l].entry && y.offers != [] {
      assert t.waits[w].offers[0] == y.offers[0];
      assert Heard(t, w, y.offers[0]) == Heard(s, w, y.offers[0]);
    }
  }

  lemma SendKeeps(labels: seq<string>, s: State, e: Event)
    requires Inv(labels, s) && Enabled(labels, s, e) && e.Send?
    ensures Inv(labels, Step(labels, s, e))
  {
    hide WaitKey, ParseFor;
    var t := Step(labels, s, e);
    forall w | 0 <= w < |t.waits| ensures ChannelOk(t, w) { SendChannel(labels, s, e, w); }
    hide ChannelOk;
    forall l | 0 <= l < |t.lookups| ensures LookupOk(labels, t, t.lookups[l]) {
      assert LookupOk(labels, s, s.lookups[l]);
    }
  }

  /** Events inside one wait change only its phase, its outcome and what is left in its slot. */
  lemma LocalKeeps(labels: seq<string>, s: State, e: Event)
    requires Inv(labels, s) && Enabled(labels, s, e) && (e.PromptSent? || e.PromptFailed? || e.Receive? || e.Lapse?)
    ensures Inv(labels, Step(labels, s, e))
  {
    hide WaitKey, ParseFor;
    var t := Step(labels, s, e);
    assert ChannelOk(s, e.w);
    hide Inv, TableOk, TimesOk, LookupOk, Key;
    var y := t.waits[e.w];
    assert t == s.(now := s.now + 1, waits := s.waits[e.w := y]);
    assert ChannelOk(s.(waits := s.waits[e.w := y]), e.w);
    hide Step, Enabled, ChannelOk;
    ReplaceKeeps(labels, s, e.w, y);
  }

  lemma ReplaceKeeps(labels: seq<string>, s: State, w: nat, y: Wait)
    requires Inv(labels, s) && w < |s.waits| && Active(s.waits[w]) && Active(y)
    requires y == s.waits[w].(phase := y.phase, outcome := y.outcome, ch := y.ch)
    requires ChannelOk(s.(waits := s.waits[w := y]), w)
    ensures Inv(labels, s.(now := s.now + 1, waits := s.waits[w := y]))
  {
    hide WaitKey, ParseFor;
    var t := s.(now := s.now + 1, waits := s.waits[w := y]);
    assert TableOk(labels, t) && TimesOk(t) by { hide ChannelOk, LookupOk; }
    hide TimesOk, Inv;
    forall v | 0 <= v < |t.waits| ensures ChannelOk(t, v) {
      assert ChannelOk(s, v);
    }
    hide ChannelOk;
    forall l | 0 <= l < |t.lookups| ensures LookupOk(labels, t, t.lookups[l]) {
      assert LookupOk(labels, s, s.lookups[l]);
    }
    assert Inv(labels, t) by { InvFrom(labels, t); }
  }

  lemma InvFrom(labels: seq<string>, t: State)
    requires TableOk(labels, t) && TimesOk(t)
    requires forall l | 0 <= l < |t.lookups| :: LookupOk(labels, t, t.lookups[l])
    requires forall w | 0 <= w < |t.waits| :: ChannelOk(t, w)
    ensures Inv(labels, t)
  {
    hide TableOk, TimesOk, LookupOk, ChannelOk;
  }

  lemma UnregisterKeeps(labels: seq<string>, s: State, e: Event)
    requires Inv(labels, s) && Enabled(labels, s, e) && e.Unregister?
    ensures Inv(labels, Step(labels, s, e))
  {
    hide WaitKey, ParseFor;
    var t := Step(labels, s, e);
    forall l | 0 <= l < |t.lookups| ensures LookupOk(labels, t, t.lookups[l]) {
      assert LookupOk(labels, s, s.lookups[l]);
    }
    forall w | 0 <= w < |t.waits| ensures ChannelOk(t, w) { assert ChannelOk(s, w); }
  }

  /** The invariant holds in every reachable state, whatever the interleaving. */
  lemma {:induction false} Reachable(labels: seq<string>, es: seq<Event>)
    requires IsRun(labels, es)
    ensures Inv(labels, After(labels, es))
  {
    if es != [] {
      var init, e := es[..|es| - 1], es[|es| - 1];
      Reachable(labels, init);
      var s := After(labels, init);
      if e.Register? { RegisterKeeps(labels, s, e); }
      else if e.LookUp? { LookUpKeeps(labels, s, e); }
      else if e.Send? { SendKeeps(labels, s, e); }
      else if e.Unregister? { UnregisterKeeps(labels, s, e); }
      else { LocalKeeps(labels, s, e); }
    }
  }

  // ------------------------------------------------------------ main results

  /** Every reply a wait returns is the parse, under that wait's own batch size, of a message from the
      same bot and the same peer that was looked up while that wait was registered; it is the first one
      sent to the wait.  A wait that got none answers "denied". */
  lemma ResultIsOwnReply(labels: seq<string>, es: seq<Event>, w: nat)
    requires AcceptedLabels(labels) && IsRun(labels, es)
    requires w < |After(labels, es).waits| && After(labels, es).waits[w].outcome != Pending
    ensures var s := After(labels, es); var y := s.waits[w];
      || (y.outcome == Lapsed && Answer(y.outcome) == Reply(Denied, [], ""))
      || (y.offers != [] && exists l :: l == y.offers[0] && l < |s.lookups| && var x := s.lookups[l];
            && Answer(y.outcome) == ParseFor(y.batchN, x.content)
            && x.bot == y.bot && TrimSpace(x.peer) == TrimSpace(y.peer)
            && x.entry == w && y.since < x.at && (y.phase == Returned ==> x.at < y.until))
  {
    hide TrimSpace, ParseFor, WaitKey;
    Reachable(labels, es);
    var s := After(labels, es);
    var y := s.waits[w];
    assert ChannelOk(s, w);
    if y.outcome.Got? {
      var l := y.offers[0];
      var x := s.lookups[l];
      assert LookupOk(labels, s, x);
      WaitKeyInjective(labels, x.bot, x.peer, y.bot, y.peer);
    }
  }

  /** A plain denial: no items, no comment. */
  predicate PlainlyDenies(r: Reply) {
    r.choice == Denied && r.indices == [] && r.comment == ""
  }

  predicate AllDenied(replies: seq<Reply>) {
    forall i | 0 <= i < |replies| :: PlainlyDenies(replies[i])
  }

  /** In every run a wait that ends without a reply (no prompt could be sent, its time ran out, or the process
      stops) denies plainly, and so does every wait that was refused. */
  lemma {:induction false} SilenceDenies(labels: seq<string>, es: seq<Event>)
    requires IsRun(labels, es)
    ensures var s := After(labels, es);
      && (forall w | 0 <= w < |s.waits| && s.waits[w].outcome == Lapsed :: PlainlyDenies(Answer(s.waits[w].outcome)))
      && AllDenied(s.refused)
  {
    hide Step, Enabled;
    if es != [] {
      SilenceDenies(labels, es[..|es| - 1]);
      RefusedKept(labels, After(labels, es[..|es| - 1]), es[|es| - 1]);
    }
  }

  lemma RefusedKept(labels: seq<string>, s: State, e: Event)
    requires Enabled(labels, s, e) && AllDenied(s.refused)
    ensures AllDenied(Step(labels, s, e).refused)
  {
    hide ParseFor, WaitKey, Key;
    var t := Step(labels, s, e);
    assert t.refused == s.refused || t.refused == s.refused + [DENIED];
  }

  /** This text approves: one of the words for it, or for a batch a list of numbers of its requests. */
  ghost predicate Approves(batchN: nat, content: string) {
    || Word(content) in {"y", "yes", "s", "session", "a", "always"}
    || (batchN > 0 && ListsItems(Word(content), batchN))
  }

  ghost predicate ListsItems(word: string, batchN: nat) {
    exists ns :: IsListOf(word, ns, batchN)
  }

  lemma ApprovalApproves(batchN: nat, content: string)
    requires ParseFor(batchN, content).choice != Denied
    ensures Approves(batchN, content)
  {
    if batchN > 0 && Word(content) !in {"y", "yes", "s", "session", "a", "always"} {
      ApprovingIsListed(content, batchN);
    }
    hide Word, IsListOf, ParseBatch;
  }

  /** In every run a wait answers anything but a denial only when a message from its own peer at its own bot was
      looked up while it was registered, and that message's text approves. */
  lemma ApprovalNeedsWord(labels: seq<string>, es: seq<Event>, w: nat)
    requires AcceptedLabels(labels) && IsRun(labels, es)
    requires w < |After(labels, es).waits| && Answer(After(labels, es).waits[w].outcome).choice != Denied
    ensures var s := After(labels, es); var y := s.waits[w];
      exists l :: 0 <= l < |s.lookups| && var x := s.lookups[l];
        && Approves(y.batchN, x.content)
        && x.bot == y.bot && TrimSpace(x.peer) == TrimSpace(y.peer)
        && y.since < x.at && (y.phase == Returned ==> x.at < y.until)
  {
    hide TrimSpace, ParseFor, WaitKey, Approves, After, IsRun;
    Reachable(labels, es);
    var s := After(labels, es);
    var y := s.waits[w];
    assert ChannelOk(s, w) && y.outcome != Pending;
    ResultIsOwnReply(labels, es, w);
    ApprovalApproves(y.batchN, s.lookups[y.offers[0]].content);
  }

  /** Each loop sends before it looks up again, so only the last lookup of a bot may be unsent. */
  ghost predicate OneAtATime(s: State) {
    forall l, m | 0 <= l < m < |s.lookups| && s.lookups[l].bot == s.lookups[m].bot :: s.lookups[l].sent
  }

  /** A wait is offered the replies of all lookups that found it and were sent, in the order of the lookups. */
  ghost predicate OffersOk(s: State, w: nat)
    requires w < |s.waits|
  {
    var offers := s.waits[w].offers;
    && (forall i, j | 0 <= i < j < |offers| :: offers[i] < offers[j])
    && (forall l: nat :: l in offers <==> l < |s.lookups| && s.lookups[l].entry == w && s.lookups[l].sent)
  }

  /** Lookups that found the same wait were made by the same bot. */
  lemma SameWaitSameBot(labels: seq<string>, s: State, l: nat, m: nat)
    requires AcceptedLabels(labels) && Inv(labels, s) && l < |s.lookups| && m < |s.lookups|
    requires s.lookups[l].entry == s.lookups[m].entry
    ensures s.lookups[l].bot == s.lookups[m].bot
  {
    hide TrimSpace, WaitKey, AcceptedLabels, ChannelOk;
    var x, y := s.lookups[l], s.lookups[m];
    assert LookupOk(labels, s, x) && LookupOk(labels, s, y);
    WaitKeyInjective(labels, x.bot, x.peer, y.bot, y.peer);
  }

  lemma OneAtATimeKept(labels: seq<string>, s: State, e: Event)
    requires OneAtATime(s) && Enabled(labels, s, e)
    ensures OneAtATime(Step(labels, s, e))
  {
    hide WaitKey, ParseFor;
  }

  /** The reply being sent is from a later lookup than every reply the wait was offered before. */
  lemma SendIsLater(labels: seq<string>, s: State, l: nat, w: nat)
    requires AcceptedLabels(labels) && Inv(labels, s) && OneAtATime(s) && Enabled(labels, s, Send(l))
    requires w == s.lookups[l].entry && OffersOk(s, w)
    ensures forall m | m in s.waits[w].offers :: m < l
  {
    forall m | m in s.waits[w].offers ensures m < l { SameWaitSameBot(labels, s, l, m); }
  }

  lemma SendOffers(labels: seq<string>, s: State, l: nat, w: nat)
    requires Enabled(labels, s, Send(l)) && w < |s.waits| && OffersOk(s, w)
    requires w == s.lookups[l].entry ==> forall m | m in s.waits[w].offers :: m < l
    ensures OffersOk(Step(labels, s, Send(l)), w)
  {
    hide ParseFor;
    var t := Step(labels, s, Send(l));
    var offers := s.waits[w].offers;
    if w == s.lookups[l].entry {
      assert t.waits[w].offers == offers + [l];
      assert forall i | 0 <= i < |offers| :: offers[i] in offers;
    } else {
      assert t.waits[w].offers == offers;
    }
  }

  /** Only a send offers anything; a new lookup is not sent yet and a new wait was not found yet. */
  lemma OtherOffers(labels: seq<string>, s: State, e: Event, w: nat)
    requires Enabled(labels, s, e) && !e.Send? && w < |Step(labels, s, e).waits|
    requires w < |s.waits| ==> OffersOk(s, w)
    requires forall l | 0 <= l < |s.lookups| :: s.lookups[l].entry < |s.waits|
    ensures OffersOk(Step(labels, s, e), w)
  {
    hide ParseFor, WaitKey, Key;
    var t := Step(labels, s, e);
    assert forall l | 0 <= l < |s.lookups| :: t.lookups[l] == s.lookups[l];
    assert w < |s.waits| ==> t.waits[w].offers == s.waits[w].offers;
  }

  lemma OffersKept(labels: seq<string>, s: State, e: Event, w: nat)
    requires AcceptedLabels(labels) && Inv(labels, s) && OneAtATime(s) && Enabled(labels, s, e)
    requires forall v | 0 <= v < |s.waits| :: OffersOk(s, v)
    requires w < |Step(labels, s, e).waits|
    ensures OffersOk(Step(labels, s, e), w)
  {
    FoundOnes(labels, s);
    if e.Send? {
      if w == s.lookups[e.l].entry { SendIsLater(labels, s, e.l, w); }
      hide Inv, OneAtATime, AcceptedLabels, OffersOk;
      SendOffers(labels, s, e.l, w);
    } else {
      hide Inv, OneAtATime, AcceptedLabels, OffersOk;
      OtherOffers(labels, s, e, w);
    }
  }

  lemma FoundOnes(labels: seq<string>, s: State)
    requires Inv(labels, s)
    ensures forall l | 0 <= l < |s.lookups| :: s.lookups[l].entry < |s.waits|
  {
    hide WaitKey, ParseFor, ChannelOk, TimesOk;
    forall l | 0 <= l < |s.lookups| ensures s.lookups[l].entry < |s.waits| {
      assert LookupOk(labels, s, s.lookups[l]);
    }
  }

  lemma {:induction false} OffersInOrder(labels: seq<string>, es: seq<Event>)
    requires AcceptedLabels(labels) && IsRun(labels, es)
    ensures OneAtATime(After(labels, es))
    ensures forall w | 0 <= w < |After(labels, es).waits| :: OffersOk(After(labels, es), w)
  {
    hide Step, Enabled, OneAtATime, OffersOk, AcceptedLabels;
    if es == [] {
      assert OneAtATime(INIT) by { NoLookups(); }
    } else {
      var init, e := es[..|es| - 1], es[|es| - 1];
      var s := After(labels, init);
      OffersInOrder(labels, init);
      Reachable(labels, init);
      OneAtATimeKept(labels, s, e);
      forall w | 0 <= w < |Step(labels, s, e).waits| ensures OffersOk(Step(labels, s, e), w) {
        OffersKept(labels, s, e, w);
      }
    }
  }

  lemma NoLookups()
    ensures OneAtATime(INIT)
  {
  }

  /** Of all lookups that found a wait, sent or not, the first is the one whose reply it returns, if it
      returns any. */
  lemma FirstHeardWins(labels: seq<string>, es: seq<Event>, w: nat)
    requires AcceptedLabels(labels) && IsRun(labels, es)
    requires w < |After(labels, es).waits| && After(labels, es).waits[w].outcome.Got?
    ensures var s := After(labels, es); var y := s.waits[w];
      y.offers != [] && y.offers[0] < |s.lookups| && s.lookups[y.offers[0]].entry == w
      && y.outcome.reply == Heard(s, w, y.offers[0])
      && forall l | 0 <= l < |s.lookups| && s.lookups[l].entry == w :: y.offers[0] <= l
  {
    Reachable(labels, es);
    OffersInOrder(labels, es);
    var s := After(labels, es);
    var y := s.waits[w];
    hide After, IsRun, WaitKey, ParseFor, AcceptedLabels;
    assert ChannelOk(s, w) && OffersOk(s, w);
    forall l | 0 <= l < |s.lookups| && s.lookups[l].entry == w ensures y.offers[0] <= l {
      SameWaitSameBot(labels, s, l, y.offers[0]);
      assert s.lookups[l].sent ==> l in y.offers;
    }
  }

  /** A wait never hears a message that was looked up before the wait was registered or after it
      returned, even when an earlier or later wait used the same key. */
  lemma StaleLookupNeverReaches(labels: seq<string>, es: seq<Event>, l: nat, w: nat)
    requires IsRun(labels, es)
    requires var s := After(labels, es);
      && l < |s.lookups| && w < |s.waits|
      && (s.lookups[l].at <= s.waits[w].since || (s.waits[w].phase == Returned && s.waits[w].until <= s.lookups[l].at))
    ensures var s := After(labels, es);
      && l !in s.waits[w].offers
      && (Enabled(labels, s, Send(l)) ==> Step(labels, s, Send(l)).waits[w] == s.waits[w])
  {
    Reachable(labels, es);
    var s := After(labels, es);
    assert LookupOk(labels, s, s.lookups[l]);
    assert ChannelOk(s, w);
  }

  /** In every reachable state the table and the waits not yet returned are in one-to-one
      correspondence, and no two of them are for the same peer of the same bot. */
  lemma TableIsActiveWaits(labels: seq<string>, es: seq<Event>)
    requires AcceptedLabels(labels) && IsRun(labels, es)
    ensures var s := After(labels, es);
      && TableOk(labels, s)
      && (forall v, w | 0 <= v < w < |s.waits| && Active(s.waits[v]) && Active(s.waits[w]) ::
            s.waits[v].bot != s.waits[w].bot || TrimSpace(s.waits[v].peer) != TrimSpace(s.waits[w].peer))
  {
    hide TrimSpace, WaitKey;
    Reachable(labels, es);
    var s := After(labels, es);
    forall v, w | 0 <= v < w < |s.waits| && Active(s.waits[v]) && Active(s.waits[w])
      ensures s.waits[v].bot != s.waits[w].bot || TrimSpace(s.waits[v].peer) != TrimSpace(s.waits[w].peer)
    {
      assert s.table[Key(labels, s.waits[v])] == v && s.table[Key(labels, s.waits[w])] == w;
      WaitKeyInjective(labels, s.waits[v].bot, s.waits[v].peer, s.waits[w].bot, s.waits[w].peer);
    }
  }

  /** A wait on a busy key is refused, with a plain denial, and changes nothing else but the clock. */
  lemma BusyKeyIsRefused(labels: seq<string>, es: seq<Event>, bot: nat, peer: string, batchN: nat, owner: nat)
    requires AcceptedLabels(labels) && IsRun(labels, es) && bot < |labels|
    requires var s := After(labels, es);
      && owner < |s.waits| && Active(s.waits[owner])
      && s.waits[owner].bot == bot && TrimSpace(s.waits[owner].peer) == TrimSpace(peer)
    ensures var s := After(labels, es);
      Step(labels, s, Register(bot, peer, batchN)) ==
        s.(now := s.now + 1, refused := s.refused + [Reply(Denied, [], "")])
  {
    Reachable(labels, es);
    var s := After(labels, es);
    assert Key(labels, s.waits[owner]) in s.table;
  }

  /** The deferred delete of a wait removes that wait's entry and no other. */
  lemma UnregisterRemovesOwnEntry(labels: seq<string>, es: seq<Event>, w: nat)
    requires IsRun(labels, es) && Enabled(labels, After(labels, es), Unregister(w))
    ensures var s := After(labels, es); var t := Step(labels, s, Unregister(w));
      && TableOk(labels, s) && TableOk(labels, t)
      && s.table[Key(labels, s.waits[w])] == w
      && t.table == s.table - {Key(labels, s.waits[w])}
      && (forall v | 0 <= v < |s.waits| && v != w :: Active(t.waits[v]) <==> Active(s.waits[v]))
  {
    Reachable(labels, es);
    UnregisterKeeps(labels, After(labels, es), Unregister(w));
  }

  /** One wait, before and after: who asked what does not change, sent replies only pile up behind the
      first, and a decided outcome stays. */
  ghost predicate Settles(x: Wait, y: Wait) {
    && x.bot == y.bot && x.peer == y.peer && x.batchN == y.batchN && x.since == y.since
    && x.offers <= y.offers
    && (x.outcome != Pending ==> y.outcome == x.outcome)
  }

  lemma StepSettles(labels: seq<string>, s: State, e: Event, w: nat)
    requires Inv(labels, s) && Enabled(labels, s, e) && w < |s.waits|
    ensures w < |Step(labels, s, e).waits| && Settles(s.waits[w], Step(labels, s, e).waits[w])
  {
    hide ParseFor, WaitKey, Key, LookupOk, TableOk, TimesOk;
    assert ChannelOk(s, w);
    hide Inv, ChannelOk;
  }

  /** What was decided stays decided, in every continuation of every run. */
  lemma {:induction false} OutcomeIsFinal(labels: seq<string>, es: seq<Event>, more: seq<Event>, w: nat)
    requires IsRun(labels, es) && IsRun(labels, es + more)
    requires w < |After(labels, es).waits|
    ensures w < |After(labels, es + more).waits|
    ensures Settles(After(labels, es).waits[w], After(labels, es + more).waits[w])
    decreases |more|
  {
    if more == [] {
      assert es + more == es;
    } else {
      var all, less := es + more, es + more[..|more| - 1];
      assert all[..|all| - 1] == less;
      OutcomeIsFinal(labels, es, more[..|more| - 1], w);
      Reachable(labels, less);
      StepSettles(labels, After(labels, less), all[|all| - 1], w);
    }
  }
}
