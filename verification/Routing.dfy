/** Tape names, bot labels and the keys scoped by them. */
module Routing {
  import opened Text

  // ------------------------------------------------------------- bot labels

  predicate AlphaNum(c: char) {
    'a' <= c <= 'z' || 'A' <= c <= 'Z' || '0' <= c <= '9'
  }

  predicate IdChar(c: char) {
    AlphaNum(c) || c == '.' || c == '_' || c == '-'
  }

  /** 1 to 64 characters, the first one alphanumeric. */
  predicate ValidId(s: string) {
    1 <= |s| <= 64 && AlphaNum(s[0]) && forall i | 0 <= i < |s| :: IdChar(s[i])
  }

  /** Empty stands for the single default account. */
  function SanitizeLoginID(s: string): (r: Result<string>)
    ensures r.Ok? <==> Blank(s) || ValidId(TrimSpace(s))
    ensures r.Ok? ==> r.value == TrimSpace(s)
  {
    var t := TrimSpace(s);
    if t == "" then Ok("") else if ValidId(t) then Ok(t) else Err
  }

  /** The labels of the bots of an accepted configuration: a lone bot may have none, several bots
      have one each and no two the same. */
  predicate AcceptedLabels(labels: seq<string>) {
    && |labels| >= 1
    && (|labels| == 1 ==> labels[0] == "" || ValidId(labels[0]))
    && (|labels| > 1 ==> forall i | 0 <= i < |labels| :: ValidId(labels[i]))
    && (forall i, j | 0 <= i < j < |labels| :: labels[i] != labels[j])
  }

  /** Which ids are accepted, after trimming: none, or 1 to 64 letters, digits, dots, underscores and hyphens of
      the ASCII range, of which the first is a letter or a digit. */
  lemma AcceptedIds(s: string)
    ensures var t := TrimSpace(s);
      && (SanitizeLoginID(s) == Ok(t) || SanitizeLoginID(s).Err?)
      && (SanitizeLoginID(s).Err? <==>
            || |t| > 64
            || (t != "" && t[0] in "._-")
            || exists i :: 0 <= i < |t| && t[i] !in "._-" && !InRanges(t[i], [(48, 57), (65, 90), (97, 122)]))
  {
    hide TrimSpace;
    var t := TrimSpace(s);
    forall c: char ensures InRanges(c, [(48, 57), (65, 90), (97, 122)]) <==> AlphaNum(c) {
      var ranges := [(48, 57), (65, 90), (97, 122)];
      assert ranges[0] == (48, 57) && ranges[1] == (65, 90) && ranges[2] == (97, 122);
    }
    hide InRanges;
    if t != "" && t[0] !in "._-" && !AlphaNum(t[0]) { assert !InRanges(t[0], [(48, 57), (65, 90), (97, 122)]); }
  }

  /** The code of this character lies in one of these ranges. */
  predicate InRanges(c: char, ranges: seq<(int, int)>) {
    exists i :: 0 <= i < |ranges| && ranges[i].0 <= c as int <= ranges[i].1
  }

  // ------------------------------------------------------------- tape names

  datatype Route = Route(peer: string, botLabel: string)

  const PREFIX := "weixin:"
  const P2P := "p2p:"
  const SEP := ":p2p:"

  function LegacyTape(peer: string): (r: string) {
    PREFIX + P2P + peer
  }

  function TapeForPeer(peer: string, botLabel: string): (r: string) {
    if botLabel != "" then PREFIX + botLabel + SEP + peer else LegacyTape(peer)
  }

  /** The peer and the bot label of a tape name; None when it is not a chat tape. */
  function ParseTape(name: string): (r: Option<Route>)
    ensures r.Some? ==> r.value.peer != "" && Trimmed(r.value.peer) && Trimmed(r.value.botLabel)
  {
    var tape := TrimSpace(name);
    if !HasPrefix(tape, PREFIX) then None
    else
      var body := tape[|PREFIX|..];
      if HasPrefix(body, P2P) then
        var peer := TrimSpace(body[|P2P|..]);
        if peer == "" then None else Some(Route(peer, ""))
      else
        match Index(body, SEP)
        case None => None
        case Some(i) =>
          if i == 0 then None
          else
            var botLabel := TrimSpace(body[..i]);
            var peer := TrimSpace(body[i + |SEP|..]);
            if botLabel == "" || peer == "" then None else Some(Route(peer, botLabel))
  }

  /** The bot a label selects: a lone bot also answers to no label. */
  function BotFor(labels: seq<string>, botLabel: string): (r: Option<nat>)
    ensures r.Some? ==> r.value < |labels|
  {
    var l := TrimSpace(botLabel);
    if |labels| == 0 then None
    else if |labels| == 1 then (if l == "" || l == labels[0] then Some(0) else None)
    else if l == "" then None
    else FirstWith(labels, l)
  }

  function FirstWith(labels: seq<string>, botLabel: string): (r: Option<nat>)
    ensures r.Some? ==> r.value < |labels| && labels[r.value] == botLabel && botLabel !in labels[..r.value]
    ensures r.None? ==> botLabel !in labels
  {
    if labels == [] then None
    else if labels[0] == botLabel then Some(0)
    else
      match FirstWith(labels[1..], botLabel)
      case None => None
      case Some(i) => Some(i + 1)
  }

  method BotByTapeLabel(labels: seq<string>, botLabel: string) returns (r: Option<nat>)
    ensures r == BotFor(labels, botLabel)
  {
    var l := TrimSpace(botLabel);
    if |labels| == 0 { return None; }
    if |labels| == 1 {
      return if l == "" || l == labels[0] then Some(0) else None;
    }
    if l == "" { return None; }
    for i := 0 to |labels|
      invariant l !in labels[..i]
    {
      if labels[i] == l {
        FirstWithUnique(labels, l, i);
        return Some(i);
      }
    }
    assert labels[..|labels|] == labels;
    r := None;
  }

  lemma FirstWithUnique(labels: seq<string>, botLabel: string, i: nat)
    requires i < |labels| && labels[i] == botLabel && botLabel !in labels[..i]
    ensures FirstWith(labels, botLabel) == Some(i)
  {
    forall j | 0 <= j < i ensures labels[j] != botLabel { assert labels[..i][j] == labels[j]; }
    var r := FirstWith(labels, botLabel);
    assert forall j | 0 <= j < r.value :: labels[..r.value][j] == labels[j];
  }

  // ---------------------------------------------------- tape names come back

  lemma LabelHasNo(botLabel: string, c: char)
    requires botLabel == "" || ValidId(botLabel)
    requires !IdChar(c)
    ensures c !in botLabel
  {
  }

  lemma TrimmedTape(peer: string, botLabel: string)
    requires Trimmed(peer) && peer != ""
    ensures TrimSpace(TapeForPeer(peer, botLabel)) == TapeForPeer(peer, botLabel)
  {
    var t := TapeForPeer(peer, botLabel);
    assert t[0] == 'w' && t[|t| - 1] == peer[|peer| - 1];
  }

  lemma LegacyParses(peer: string)
    requires Trimmed(peer) && peer != ""
    ensures ParseTape(LegacyTape(peer)) == Some(Route(peer, ""))
  {
    TrimmedTape(peer, "");
    var t := LegacyTape(peer);
    assert t[0..7] == PREFIX;
    assert t[7..] == P2P + peer;
    assert (P2P + peer)[0..4] == P2P && (P2P + peer)[4..] == peer;
  }

  lemma LabelledParses(peer: string, botLabel: string)
    requires Trimmed(peer) && peer != ""
    requires ValidId(botLabel) && botLabel != "p2p"
    ensures ParseTape(TapeForPeer(peer, botLabel)) == Some(Route(peer, botLabel))
  {
    hide TrimSpace, ValidId, IsSpace;
    IdTrimmed(botLabel, peer);
    TrimmedTape(peer, botLabel);
    var t := TapeForPeer(peer, botLabel);
    var body := botLabel + SEP + peer;
    assert t[0..7] == PREFIX && t[7..] == body;
    LabelHasNo(botLabel, ':');
    NotLegacy(botLabel, peer);
    assert body[|botLabel|..|botLabel| + 5] == SEP;
    assert At(body, SEP, |botLabel|);
    forall i | 0 <= i < |botLabel| ensures !At(body, SEP, i) { NotAt(body, SEP, i); }
    assert body[..|botLabel|] == botLabel && body[|botLabel| + 5..] == peer;
  }

  lemma IdTrimmed(botLabel: string, peer: string)
    requires Trimmed(peer) && ValidId(botLabel)
    ensures TrimSpace(botLabel) == botLabel && botLabel != "" && TrimSpace(peer) == peer
  {
    assert Trimmed(botLabel);
  }

  lemma NotLegacy(botLabel: string, peer: string)
    requires ':' !in botLabel && botLabel != "p2p"
    ensures !HasPrefix(botLabel + SEP + peer, P2P)
  {
    var body := botLabel + SEP + peer;
    if |botLabel| == 3 {
      var j :| 0 <= j < 3 && botLabel[j] != "p2p"[j];
      NotAtBy(body, P2P, 0, j);
    } else if |botLabel| < 3 {
      assert body[|botLabel|] == ':';
      NotAtBy(body, P2P, 0, |botLabel|);
    } else {
      NotAtBy(body, P2P, 0, 3);
    }
  }

  /** The label "p2p" passes the id pattern, but its tapes read as legacy tapes. */
  lemma P2pLabelReadsAsLegacy(peer: string)
    requires Trimmed(peer) && peer != ""
    ensures ParseTape(TapeForPeer(peer, "p2p")) == Some(Route("p2p:" + peer, ""))
  {
    assert TapeForPeer(peer, "p2p") == LegacyTape("p2p:" + peer);
    LegacyParses("p2p:" + peer);
  }

  lemma OwnLabelFindsBot(labels: seq<string>, b: nat)
    requires AcceptedLabels(labels) && b < |labels|
    ensures BotFor(labels, labels[b]) == Some(b)
  {
    assert Trimmed(labels[b]);
    if |labels| > 1 { FirstWithUnique(labels, labels[b], b); }
  }

  /** Which bot a label selects, white space aside: the one that has it, and a lone bot also for no label. */
  lemma BotForIff(labels: seq<string>, botLabel: string, b: nat)
    requires AcceptedLabels(labels) && b < |labels|
    ensures BotFor(labels, botLabel) == Some(b) <==>
      var l := TrimSpace(botLabel); (l != "" && labels[b] == l) || (l == "" && |labels| == 1)
  {
    hide TrimSpace, ValidId;
    var l := TrimSpace(botLabel);
    if |labels| > 1 && l != "" {
      if labels[b] == l { FirstWithUnique(labels, l, b); }
    }
  }

  /** What a chat tape looks like, white space at its ends aside: "weixin:p2p:" and the peer, or "weixin:", a
      label, ":p2p:" and the peer. */
  ghost predicate TapeReads(tape: string, peer: string, botLabel: string) {
    || (botLabel == "" && exists p :: tape == "weixin:p2p:" + p && TrimSpace(p) == peer)
    || (&& botLabel != ""
        && exists l, p ::
          tape == "weixin:" + l + ":p2p:" + p && TrimSpace(l) == botLabel && TrimSpace(p) == peer)
  }

  /** Whatever is read from a tape stands there. */
  lemma ParsedTapeReads(name: string)
    requires ParseTape(name).Some?
    ensures TapeReads(TrimSpace(name), ParseTape(name).value.peer, ParseTape(name).value.botLabel)
  {
    var tape := TrimSpace(name);
    hide TrimSpace;
    var body := tape[|PREFIX|..];
    assert tape == "weixin:" + body;
    if HasPrefix(body, P2P) {
      assert body == "p2p:" + body[4..];
      assert tape == "weixin:p2p:" + body[4..];
    } else {
      var i := Index(body, SEP).value;
      assert body == body[..i] + ":p2p:" + body[i + 5..];
      assert tape == "weixin:" + body[..i] + ":p2p:" + body[i + 5..];
    }
  }

  /** Where a tape leads: the bot and the peer that read it. */
  function RouteOf(labels: seq<string>, tape: string): (r: Option<(nat, string)>)
    ensures r.Some? ==> r.value.0 < |labels| && r.value.1 != "" && Trimmed(r.value.1)
  {
    match ParseTape(tape)
    case None => None
    case Some(route) =>
      match BotFor(labels, route.botLabel)
      case None => None
      case Some(b) => Some((b, route.peer))
  }

  /** For every accepted configuration, the tape printed for a peer of a bot leads back to that bot and
      that peer exactly when the bot's label is not "p2p". */
  lemma TapeRoundTrip(labels: seq<string>, b: nat, peer: string)
    requires AcceptedLabels(labels) && b < |labels|
    requires Trimmed(peer) && peer != ""
    ensures RouteOf(labels, TapeForPeer(peer, labels[b])) == Some((b, peer)) <==> labels[b] != "p2p"
  {
    OwnLabelFindsBot(labels, b);
    if labels[b] == "" {
      LegacyParses(peer);
    } else if labels[b] == "p2p" {
      P2pLabelReadsAsLegacy(peer);
      assert |"p2p:" + peer| != |peer|;
    } else {
      LabelledParses(peer, labels[b]);
    }
  }

  // ------------------------------------------------------------ scoped keys

  const RS := '\U{1E}'

  /** Key under which a wait for this bot and this peer is registered. */
  function WaitKey(botLabel: string, peer: string): (r: string) {
    if botLabel == "" then TrimSpace(peer) else botLabel + [RS] + TrimSpace(peer)
  }

  lemma SameUntil(a: string, x: string, b: string, y: string, c: char)
    requires c !in a && c !in b
    requires a + [c] + x == b + [c] + y
    ensures a == b && x == y
  {
    var s := a + [c] + x;
    assert s[|a|] == c && s[|b|] == c;
    assert forall i | 0 <= i < |a| :: s[i] == a[i];
    assert forall i | 0 <= i < |b| :: s[i] == b[i];
    assert |a| == |b|;
    assert a == s[..|a|] && b == s[..|b|];
    assert x == s[|a| + 1..] && y == s[|b| + 1..];
  }

  /** Waits of distinct bots, or of distinct peers of one bot, never share a key. */
  lemma WaitKeyInjective(labels: seq<string>, b1: nat, p1: string, b2: nat, p2: string)
    requires AcceptedLabels(labels) && b1 < |labels| && b2 < |labels|
    ensures WaitKey(labels[b1], p1) == WaitKey(labels[b2], p2) <==> b1 == b2 && TrimSpace(p1) == TrimSpace(p2)
  {
    LabelHasNo(labels[b1], RS);
    LabelHasNo(labels[b2], RS);
    if WaitKey(labels[b1], p1) == WaitKey(labels[b2], p2) && labels[b1] != "" {
      assert labels[b2] != "";
      SameUntil(labels[b1], TrimSpace(p1), labels[b2], TrimSpace(p2), RS);
    }
  }

  /** Key of an inbound message in the deduplicator, before scoping; empty when it carries no id. */
  function MessageKey(messageID: int, seqNo: int): (r: string) {
    if messageID != 0 then "mid:" + FormatInt(messageID)
    else if seqNo != 0 then "seq:" + FormatInt(seqNo)
    else ""
  }

  function ScopedKey(botLabel: string, raw: string, multi: bool): (r: string) {
    if raw == "" then ""
    else if !multi || botLabel == "" then raw
    else botLabel + "|" + raw
  }

  predicate Fits64(n: int) {
    INT64_MIN <= n <= INT64_MAX
  }

  lemma FormatIntInjective(a: int, b: int)
    requires Fits64(a) && Fits64(b)
    requires FormatInt(a) == FormatInt(b)
    ensures a == b
  {
    AtoiFormat(a);
    AtoiFormat(b);
  }

  lemma MessageKeyInjective(m1: int, s1: int, m2: int, s2: int)
    requires Fits64(m1) && Fits64(s1) && Fits64(m2) && Fits64(s2)
    requires MessageKey(m1, s1) == MessageKey(m2, s2)
    ensures m1 == m2 && (m1 == 0 ==> s1 == s2)
  {
    hide FormatInt;
    var k := MessageKey(m1, s1);
    if m1 != 0 {
      assert k[0] == 'm' && k[4..] == FormatInt(m1);
      assert m2 != 0 && k[4..] == FormatInt(m2);
      FormatIntInjective(m1, m2);
    } else if s1 != 0 {
      assert k[0] == 's' && k[4..] == FormatInt(s1);
      assert m2 == 0 && s2 != 0 && k[4..] == FormatInt(s2);
      FormatIntInjective(s1, s2);
    }
  }

  /** Two messages share a dedup key only if they reached the same bot and carry the same id. */
  lemma ScopedKeyInjective(labels: seq<string>, b1: nat, raw1: string, b2: nat, raw2: string)
    requires AcceptedLabels(labels) && b1 < |labels| && b2 < |labels|
    requires raw1 != "" && raw2 != ""
    ensures ScopedKey(labels[b1], raw1, |labels| > 1) == ScopedKey(labels[b2], raw2, |labels| > 1)
       <==> b1 == b2 && raw1 == raw2
  {
    LabelHasNo(labels[b1], '|');
    LabelHasNo(labels[b2], '|');
    if ScopedKey(labels[b1], raw1, |labels| > 1) == ScopedKey(labels[b2], raw2, |labels| > 1) && |labels| > 1 {
      SameUntil(labels[b1], raw1, labels[b2], raw2, '|');
    }
  }
}
