/** The approver as the program holds it: a shared map from keys to heap-allocated waits, each with a
    one-slot channel.  Every section that runs under the lock, or as one channel operation, is a method,
    and each is proved to be one step of the rendezvous. */
module Approver {
  import opened Text
  import opened ApprovalParser
  import opened Routing
  import Rendezvous

  class ApprovalWait {
    const batchN: nat
    var ch: seq<Reply>

    constructor (batchN: nat)
      ensures this.batchN == batchN && ch == []
    {
      this.batchN := batchN;
      ch := [];
    }
  }

  class WeixinApprover {
    var wait: map<string, ApprovalWait>

    constructor ()
      ensures Represents(Rendezvous.INIT, [])
    {
      wait := map[];
    }

    /** The heap stands for state `s` when `objs[i]` is the object of the i-th wait: the map leads each
        key to the object of the wait the table names, and every object holds its wait's channel. */
    ghost predicate Represents(s: Rendezvous.State, objs: seq<ApprovalWait>)
      reads this, objs
    {
      && |objs| == |s.waits|
      && (forall i, j | 0 <= i < j < |objs| :: objs[i] != objs[j])
      && wait.Keys == s.table.Keys
      && (forall k | k in s.table :: s.table[k] < |objs| && wait[k] == objs[s.table[k]])
      && (forall i | 0 <= i < |objs| :: objs[i].batchN == s.waits[i].batchN && objs[i].ch == s.waits[i].ch)
    }

    /** Start of a wait: refused with a plain denial when the key is busy, otherwise a fresh entry is put into
        the map. */
    method Register(bot: nat, peer: string, batchN: nat, labels: seq<string>,
                    ghost s: Rendezvous.State, ghost objs: seq<ApprovalWait>)
      returns (entry: ApprovalWait?, refusal: Option<Reply>, ghost objs': seq<ApprovalWait>)
      requires Represents(s, objs) && bot < |labels|
      modifies this
      ensures entry == null <==> WaitKey(labels[bot], peer) in s.table
      ensures refusal == if entry == null then Some(Reply(Denied, [], "")) else None
      ensures entry == null ==> objs' == objs && wait == old(wait)
      ensures entry != null ==> fresh(entry) && objs' == objs + [entry] && entry.batchN == batchN
      ensures Represents(Rendezvous.Step(labels, s, Rendezvous.Register(bot, peer, batchN)), objs')
    {
      var key := WaitKey(labels[bot], peer);
      if key in wait {
        return null, Some(DENIED), objs;
      }
      var e := new ApprovalWait(batchN);
      wait := wait[key := e];
      entry, refusal, objs' := e, None, objs + [e];
    }

    /** First half of resolving: find the entry under the lock, then let the lock go. */
    method LookUp(bot: nat, peer: string, content: string, labels: seq<string>,
                  ghost s: Rendezvous.State, ghost objs: seq<ApprovalWait>)
      returns (entry: ApprovalWait?)
      requires Represents(s, objs) && Rendezvous.Enabled(labels, s, Rendezvous.LookUp(bot, peer, content))
      ensures entry == null <==> WaitKey(labels[bot], peer) !in s.table
      ensures var t := Rendezvous.Step(labels, s, Rendezvous.LookUp(bot, peer, content));
        && Represents(t, objs)
        && (entry != null ==> |t.lookups| == |s.lookups| + 1 && entry == objs[t.lookups[|s.lookups|].entry])
    {
      var key := WaitKey(labels[bot], peer);
      entry := if key in wait then wait[key] else null;
    }

    /** Second half: parse the text the way this entry wants it and send without blocking. */
    method Send(entry: ApprovalWait, content: string, ghost l: nat, ghost labels: seq<string>,
                ghost s: Rendezvous.State, ghost objs: seq<ApprovalWait>)
      requires Represents(s, objs) && Rendezvous.Enabled(labels, s, Rendezvous.Send(l))
      requires entry == objs[s.lookups[l].entry] && content == s.lookups[l].content
      modifies entry
      ensures Represents(Rendezvous.Step(labels, s, Rendezvous.Send(l)), objs)
    {
      var reply := ParseFor(entry.batchN, content);
      if |entry.ch| < 1 {
        entry.ch := entry.ch + [reply];
      }
    }

    /** The waiter takes the reply out of its slot. */
    method Receive(entry: ApprovalWait, ghost w: nat, ghost labels: seq<string>,
                   ghost s: Rendezvous.State, ghost objs: seq<ApprovalWait>)
      returns (reply: Reply)
      requires Represents(s, objs) && Rendezvous.Enabled(labels, s, Rendezvous.Receive(w)) && entry == objs[w]
      modifies entry
      ensures var t := Rendezvous.Step(labels, s, Rendezvous.Receive(w));
        Represents(t, objs) && reply == Rendezvous.Answer(t.waits[w].outcome)
    {
      reply := entry.ch[0];
      entry.ch := entry.ch[1..];
    }

    /** A wait gives up: its time is over, the process stops, or its prompt could not be sent. */
    method GiveUp(ghost e: Rendezvous.Event, ghost labels: seq<string>, ghost s: Rendezvous.State,
                  ghost objs: seq<ApprovalWait>)
      returns (reply: Reply)
      requires Represents(s, objs) && Rendezvous.Enabled(labels, s, e) && (e.PromptFailed? || e.Lapse?)
      ensures Represents(Rendezvous.Step(labels, s, e), objs)
      ensures reply == Rendezvous.Answer(Rendezvous.Step(labels, s, e).waits[e.w].outcome) == Reply(Denied, [], "")
    {
      SilentStep(this, labels, s, e, objs);
      reply := DENIED;
    }

    /** The deferred delete. */
    method Unregister(bot: nat, peer: string, labels: seq<string>, ghost w: nat,
                      ghost s: Rendezvous.State, ghost objs: seq<ApprovalWait>)
      requires Represents(s, objs) && Rendezvous.Enabled(labels, s, Rendezvous.Unregister(w))
      requires bot == s.waits[w].bot && peer == s.waits[w].peer
      modifies this
      ensures Represents(Rendezvous.Step(labels, s, Rendezvous.Unregister(w)), objs)
    {
      var key := WaitKey(labels[bot], peer);
      wait := wait - {key};
    }
  }

  /** A prompt that is sent or fails, and a wait that lapses, touch neither the map nor any channel. */
  lemma SilentStep(a: WeixinApprover, labels: seq<string>, s: Rendezvous.State, e: Rendezvous.Event,
                   objs: seq<ApprovalWait>)
    requires a.Represents(s, objs) && Rendezvous.Enabled(labels, s, e) && (e.PromptSent? || e.PromptFailed? || e.Lapse?)
    ensures a.Represents(Rendezvous.Step(labels, s, e), objs)
  {
  }

  /** Routing of a batch: denied unless there is at least one request and all are for one chat tape of a
      known bot; otherwise the bot, the peer and the batch size to wait with. */
  function BatchTarget(labels: seq<string>, tapes: seq<string>): (r: Option<(nat, string, nat)>) {
    if tapes == [] || (exists i | 0 <= i < |tapes| :: TrimSpace(tapes[i]) != TrimSpace(tapes[0])) then None
    else
      match RouteOf(labels, TrimSpace(tapes[0]))
      case None => None
      case Some((b, peer)) => Some((b, peer, |tapes|))
  }

  method RouteBatch(labels: seq<string>, tapes: seq<string>) returns (r: Option<(nat, string, nat)>)
    ensures r == BatchTarget(labels, tapes)
  {
    if |tapes| == 0 { return None; }
    var tape := TrimSpace(tapes[0]);
    for i := 0 to |tapes|
      invariant forall j | 0 <= j < i :: TrimSpace(tapes[j]) == tape
    {
      if TrimSpace(tapes[i]) != tape { return None; }
    }
    if !HasPrefix(tape, PREFIX) {
      assert TrimSpace(tape) == tape;
      return None;
    }
    var route := ParseTape(tape);
    if route.None? { return None; }
    var b := BotByTapeLabel(labels, route.value.botLabel);
    if b.None? { return None; }
    r := Some((b.value, route.value.peer, |tapes|));
  }

  /** A batch that is asked about was asked of the chat it came from, with its own size: for tapes
      printed for one peer of one bot it reaches that peer of that bot, and the size is never the zero
      that marks a single request. */
  lemma BatchReachesItsChat(labels: seq<string>, b: nat, peer: string, tapes: seq<string>)
    requires AcceptedLabels(labels) && b < |labels| && labels[b] != "p2p"
    requires Trimmed(peer) && peer != "" && tapes != []
    requires forall i | 0 <= i < |tapes| :: TrimSpace(tapes[i]) == TapeForPeer(peer, labels[b])
    ensures BatchTarget(labels, tapes) == Some((b, peer, |tapes|)) && |tapes| > 0
  {
    TapeRoundTrip(labels, b, peer);
  }

  /** Requests from two different chats are never asked about together. */
  lemma MixedBatchIsDenied(labels: seq<string>, tapes: seq<string>, i: nat, j: nat)
    requires i < |tapes| && j < |tapes|
    requires TrimSpace(tapes[i]) != TrimSpace(tapes[j])
    ensures BatchTarget(labels, tapes) == None
  {
    assert TrimSpace(tapes[i]) != TrimSpace(tapes[0]) || TrimSpace(tapes[j]) != TrimSpace(tapes[0]);
  }
}
