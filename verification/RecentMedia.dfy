/** Media files kept per peer until a later message refers to them: the last 20 saved. */
module RecentMedia {

  const MAX_RECENT := 20

  function LastN<T>(s: seq<T>, n: nat): (r: seq<T>)
    ensures |r| == if |s| <= n then |s| else n
    ensures r == s[|s| - |r|..]
  {
    if |s| > n then s[|s| - n..] else s
  }

  function Kept<T>(m: map<string, seq<T>>, peer: string): (r: seq<T>) {
    if peer in m then m[peer] else []
  }

  function Saved<T>(m: map<string, seq<T>>, peer: string, atts: seq<T>): (r: map<string, seq<T>>) {
    if atts == [] then m else m[peer := LastN(Kept(m, peer) + atts, MAX_RECENT)]
  }

  class MediaCache<T> {
    var byPeer: map<string, seq<T>>

    /** The saves and pops so far. */
    ghost var ops: seq<Op<T>>

    ghost predicate Valid()
      reads this
    {
      byPeer == Run(ops)
    }

    constructor ()
      ensures Valid() && ops == []
    {
      byPeer, ops := map[], [];
    }

    method SetRecentMedia(peer: string, atts: seq<T>)
      requires Valid()
      modifies this
      ensures Valid() && ops == old(ops) + [Save(peer, atts)]
    {
      ops := ops + [Save(peer, atts)];
      assert ops[..|ops| - 1] == old(ops);
      if |atts| == 0 { return; }
      var existing := if peer in byPeer then byPeer[peer] else [];
      existing := existing + atts;
      if |existing| > MAX_RECENT {
        existing := existing[|existing| - MAX_RECENT..];
      }
      byPeer := byPeer[peer := existing];
    }

    /** Gives the last 20 of all that was saved for the peer since its last pop. */
    method PopRecentMedia(peer: string) returns (atts: seq<T>)
      requires Valid()
      modifies this
      ensures Valid() && ops == old(ops) + [Pop(peer)]
      ensures atts == LastN(SavedSincePop(old(ops), peer), 20)
    {
      KeptIsLast20(ops, peer);
      ops := ops + [Pop(peer)];
      assert ops[..|ops| - 1] == old(ops);
      atts := if peer in byPeer then byPeer[peer] else [];
      byPeer := byPeer - {peer};
    }
  }

  datatype Op<T> = Save(peer: string, atts: seq<T>) | Pop(peer: string)

  function Run<T>(ops: seq<Op<T>>): (r: map<string, seq<T>>) {
    if ops == [] then map[]
    else
      var m := Run(ops[..|ops| - 1]);
      match ops[|ops| - 1]
      case Save(p, atts) => Saved(m, p, atts)
      case Pop(p) => m - {p}
  }

  /** Everything saved for a peer since its last pop, never trimmed. */
  function SavedSincePop<T>(ops: seq<Op<T>>, peer: string): (r: seq<T>) {
    if ops == [] then []
    else
      var before := SavedSincePop(ops[..|ops| - 1], peer);
      match ops[|ops| - 1]
      case Save(p, atts) => if p == peer then before + atts else before
      case Pop(p) => if p == peer then [] else before
  }

  /** Trimming again and again keeps the same as trimming once: after any sequence of saves and pops over
      any peers, what is kept for a peer is the last 20 of all that was saved for it since its last pop. */
  lemma {:induction false} KeptIsLast20<T>(ops: seq<Op<T>>, peer: string)
    ensures Kept(Run(ops), peer) == LastN(SavedSincePop(ops, peer), 20)
  {
    if ops != [] {
      KeptIsLast20(ops[..|ops| - 1], peer);
      var all := SavedSincePop(ops[..|ops| - 1], peer);
      match ops[|ops| - 1]
      case Save(p, atts) =>
        if p == peer && atts != [] { TrimTwice(all, atts, MAX_RECENT); }
        if p == peer && atts == [] { assert all + atts == all; }
      case Pop(_) =>
    }
  }

  lemma TrimTwice<T>(all: seq<T>, more: seq<T>, n: nat)
    ensures LastN(LastN(all, n) + more, n) == LastN(all + more, n)
  {
  }
}
