/** Outgoing text: truncation, stripping of markdown, and cutting into messages. */
module PlainText {
  import opened Text

  const FENCE := "```"
  const CHUNK := 4000
  const TRUNCATED := "\n\n\U{2026}(truncated)"

  /** Runes of a reply and of an approval prompt that are kept. */
  const REPLY_MAX := CHUNK * 20
  const APPROVAL_MAX := 12000

  function Truncate(s: string, max: int): (r: string) {
    if max <= 0 then ""
    else if |s| <= max then s
    else s[..max] + TRUNCATED
  }

  // --------------------------------------------------------- subsequences

  /** `ix` says where in `b` each rune of `a` comes from, in increasing order. */
  ghost predicate Embeds(a: string, b: string, ix: seq<nat>) {
    && |ix| == |a|
    && (forall i | 0 <= i < |a| :: ix[i] < |b| && b[ix[i]] == a[i])
    && (forall i, j | 0 <= i < j < |a| :: ix[i] < ix[j])
  }

  ghost predicate Subsequence(a: string, b: string) {
    exists ix :: Embeds(a, b, ix)
  }

  lemma SubsequenceSelf(a: string)
    ensures Subsequence(a, a) && Subsequence("", a)
  {
    assert Embeds(a, a, seq(|a|, i => i));
    assert Embeds("", a, []);
  }

  lemma SubsequenceTrans(a: string, b: string, c: string)
    requires Subsequence(a, b) && Subsequence(b, c)
    ensures Subsequence(a, c)
  {
    var ix :| Embeds(a, b, ix);
    var jx :| Embeds(b, c, jx);
    assert Embeds(a, c, seq(|a|, i requires 0 <= i < |a| => jx[ix[i]]));
  }

  lemma SubsequenceSlice(s: string, i: nat, j: nat)
    requires i <= j <= |s|
    ensures Subsequence(s[i..j], s)
  {
    assert Embeds(s[i..j], s, seq(j - i, k requires 0 <= k => k + i));
  }

  /** Replacing a stretch of text by a subsequence of it. */
  lemma SubsequenceSplice(s: string, i: nat, j: nat, y: string)
    requires i <= j <= |s| && Subsequence(y, s[i..j])
    ensures Subsequence(s[..i] + y + s[j..], s)
  {
    var jx :| Embeds(y, s[i..j], jx);
    var ix := seq(i + |y| + (|s| - j), k requires 0 <= k < i + |y| + (|s| - j) =>
      if k < i then k else if k < i + |y| then jx[k - i] + i else k - i - |y| + j);
    assert Embeds(s[..i] + y + s[j..], s, ix);
  }

  lemma TrimIsSubsequence(s: string)
    ensures Subsequence(TrimSpace(s), s)
  {
    hide TrimSpace, AllSpace, Subsequence;
    var a, b := TrimSplit(s);
    SubsequenceSlice(s, |a|, |a| + |TrimSpace(s)|);
    assert s[|a|..|a| + |TrimSpace(s)|] == TrimSpace(s);
  }

  // ------------------------------------------------------------ code fences

  /** What stays of a fenced block: the first line, which names the language, goes. */
  function Inner(block: string): (r: string) {
    match Index(block, "\n")
    case None => TrimSpace(block)
    case Some(nl) => TrimSpace(TrimSpace(block[nl + 1..]))
  }

  /** One round: the first fence and the next one after it are cut out around the block between them. */
  function FenceRound(s: string): (r: Option<string>)
    ensures r.Some? ==> |r.value| + 6 <= |s|
  {
    match Index(s, FENCE)
    case None => None
    case Some(start) =>
      match IndexFrom(s, FENCE, start + 3)
      case None => None
      case Some(end) =>
        InnerShrinks(s[start + 3..end]);
        Some(s[..start] + Inner(s[start + 3..end]) + s[end + 3..])
  }

  function StripFences(s: string): (r: string)
    decreases |s|
  {
    match FenceRound(s)
    case None => s
    case Some(t) => StripFences(t)
  }

  function Rounds(s: string): (r: nat)
    decreases |s|
  {
    match FenceRound(s)
    case None => 0
    case Some(t) => 1 + Rounds(t)
  }

  lemma InnerShrinks(block: string)
    ensures |Inner(block)| <= |block| && Subsequence(Inner(block), block)
  {
    hide TrimSpace, Subsequence;
    match Index(block, "\n")
    case None => TrimIsSubsequence(block);
    case Some(nl) =>
      var rest := block[nl + 1..];
      TrimIsSubsequence(rest);
      TrimIsSubsequence(TrimSpace(rest));
      SubsequenceTrans(TrimSpace(TrimSpace(rest)), TrimSpace(rest), rest);
      SubsequenceSlice(block, nl + 1, |block|);
      assert block[nl + 1..|block|] == rest;
      SubsequenceTrans(Inner(block), rest, block);
  }

  /** Two fences that do not overlap. */
  ghost predicate TwoFences(s: string) {
    exists i, j :: At(s, FENCE, i) && At(s, FENCE, j) && i + 3 <= j
  }

  /** A round happens exactly when two disjoint fences are left. */
  lemma RoundIffTwoFences(s: string)
    ensures FenceRound(s).Some? <==> TwoFences(s)
  {
  }

  lemma CutFences(s: string, start: nat, end: nat, y: string)
    requires start + 3 <= end && end + 3 <= |s| && Subsequence(y, s[start + 3..end])
    ensures Subsequence(s[..start] + y + s[end + 3..], s)
  {
    hide Subsequence;
    var whole, block := s[start..end + 3], s[start + 3..end];
    var same := whole[3..end - start];
    SubsequenceSlice(whole, 3, end - start);
    forall k | 0 <= k < |block| ensures same[k] == block[k] {
      assert whole[k + 3] == s[start + k + 3];
    }
    assert same == block;
    SubsequenceTrans(y, s[start + 3..end], whole);
    SubsequenceSplice(s, start, end + 3, y);
  }

  lemma RoundIsSubsequence(s: string)
    requires FenceRound(s).Some?
    ensures Subsequence(FenceRound(s).value, s)
  {
    hide Inner, Subsequence, IndexFrom, Index;
    var start := Index(s, FENCE).value;
    var end := IndexFrom(s, FENCE, start + 3).value;
    InnerShrinks(s[start + 3..end]);
    CutFences(s, start, end, Inner(s[start + 3..end]));
  }

  /** The stripping loop runs at most n/6 rounds on n runes, leaves no two disjoint fences even when a
      removal made new ones, and only ever removes runes. */
  lemma {:induction false} StripFencesFixpoint(s: string)
    ensures 6 * Rounds(s) <= |s|
    ensures !TwoFences(StripFences(s))
    ensures Subsequence(StripFences(s), s)
    ensures |StripFences(s)| <= |s|
    decreases |s|
  {
    RoundIffTwoFences(s);
    match FenceRound(s)
    case None => SubsequenceSelf(s);
    case Some(t) =>
      StripFencesFixpoint(t);
      RoundIsSubsequence(s);
      SubsequenceTrans(StripFences(s), t, s);
  }

  /** Truncated text is its first runes, followed by a mark; text that fits stays as it is. */
  lemma TruncateIs(s: string, max: nat)
    requires max > 0
    ensures |s| <= max ==> Truncate(s, max) == s
    ensures |s| > max ==> Truncate(s, max) == s[..max] + "\n\n\U{2026}(truncated)"
  {
  }

  lemma NoFence(s: string, i: int)
    requires 0 <= i < |s| ==> s[i] != '`'
    ensures !At(s, FENCE, i)
  {
    if 0 <= i < |s| { NotAtBy(s, FENCE, i, 0); }
  }

  lemma FenceFound(s: string, from: nat, at: nat)
    requires from <= at && at + 3 <= |s| && s[at..at + 3] == "```"
    requires forall i | from <= i < at :: s[i] != '`'
    ensures IndexFrom(s, FENCE, from) == Some(at)
  {
    assert At(s, FENCE, at);
    forall i | from <= i < at ensures !At(s, FENCE, i) { NoFence(s, i); }
    hide At;
  }

  lemma NewlineFound(block: string, at: nat)
    requires at < |block| && block[at] == '\n' && forall i | 0 <= i < at :: block[i] != '\n'
    ensures Index(block, "\n") == Some(at)
  {
    assert block[at..at + 1] == "\n";
    assert At(block, "\n", at);
    forall i | 0 <= i < at ensures !At(block, "\n", i) { NotAtBy(block, "\n", i, 0); }
    hide At;
  }

  /** A fenced block, its first line naming the language: what goes out is the text before, the code, trimmed,
      and the text after; fences and language are gone. */
  lemma FencedBlock(before: string, lang: string, code: string, after: string)
    requires '`' !in before + lang + code + after && '\n' !in lang
    ensures StripFences(before + "```" + lang + "\n" + code + "```" + after) == before + TrimSpace(code) + after
  {
    hide TrimSpace, IndexFrom, Index, At;
    var block := lang + "\n" + code;
    var s := before + "```" + lang + "\n" + code + "```" + after;
    assert s == before + "```" + block + "```" + after;
    assert forall c | c in before || c in lang || c in code || c in after :: c in before + lang + code + after;
    OneFence(before, block, after);
    NewlineFound(block, |lang|);
    assert block[|lang| + 1..] == code;
    TrimTwice(code);
    Unfenced(before, code, after);
  }

  lemma Unfenced(before: string, code: string, after: string)
    requires '`' !in before && '`' !in code && '`' !in after
    ensures StripFences(before + TrimSpace(code) + after) == before + TrimSpace(code) + after
  {
    var x, y := TrimSplit(code);
    var t := before + TrimSpace(code) + after;
    forall i | 0 <= i < |TrimSpace(code)| ensures TrimSpace(code)[i] != '`' {
      assert code[|x| + i] == TrimSpace(code)[i];
    }
    hide TrimSpace;
    forall i ensures !At(t, FENCE, i) { NoFence(t, i); }
  }

  lemma OneFence(before: string, block: string, after: string)
    requires '`' !in before && '`' !in block
    ensures FenceRound(before + "```" + block + "```" + after) == Some(before + Inner(block) + after)
  {
    hide TrimSpace, At, IndexFrom, Inner;
    var s := before + "```" + block + "```" + after;
    var start, end := |before|, |before| + 3 + |block|;
    assert s[start..start + 3] == "```" && s[end..end + 3] == "```";
    FenceFound(s, 0, start);
    FenceFound(s, start + 3, end);
    assert s[start + 3..end] == block && s[..start] == before && s[end + 3..] == after;
  }

  // --------------------------------------------------------- emphasis marks

  /** Every two adjacent `c` are removed, from left to right. */
  function RemovePairs(s: string, c: char): (r: string)
    ensures |r| <= |s|
    ensures s != "" && s[0] != c ==> r != "" && r[0] == s[0]
  {
    if s == "" then ""
    else if |s| >= 2 && s[0] == c && s[1] == c then RemovePairs(s[2..], c)
    else [s[0]] + RemovePairs(s[1..], c)
  }

  /** A pair of marks goes, a single one stays, and so does anything else. */
  lemma OneByOne(s: string, c: char)
    requires s != ""
    ensures |s| >= 2 && s[0] == c && s[1] == c ==> RemovePairs(s, c) == RemovePairs(s[2..], c)
    ensures s[0] != c || |s| == 1 || s[1] != c ==> RemovePairs(s, c) == [s[0]] + RemovePairs(s[1..], c)
    ensures RemovePairs("", c) == ""
  {
  }

  /** Of a run of marks only a single one stays, when their number is odd; what follows is not touched. */
  lemma {:induction false} RunsHalve(n: nat, rest: string, c: char)
    requires rest == "" || rest[0] != c
    ensures RemovePairs(seq(n, _ => c) + rest, c) == (if n % 2 == 1 then [c] else []) + RemovePairs(rest, c)
  {
    hide RemovePairs;
    var s := seq(n, _ => c) + rest;
    if n >= 2 {
      RunsHalve(n - 2, rest, c);
      OneByOne(s, c);
      assert s[2..] == seq(n - 2, _ => c) + rest;
    } else if n == 1 {
      OneByOne(s, c);
      assert s[1..] == rest;
    } else {
      assert s == rest;
    }
  }

  predicate NoPair(s: string, c: char) {
    forall i | 0 <= i < |s| - 1 :: s[i] == c ==> s[i + 1] != c
  }

  lemma {:induction false} NoPairsLeft(s: string, c: char)
    ensures NoPair(RemovePairs(s, c), c)
  {
    if s == "" {
    } else if |s| >= 2 && s[0] == c && s[1] == c {
      NoPairsLeft(s[2..], c);
    } else {
      NoPairsLeft(s[1..], c);
    }
  }

  lemma {:induction false} RemovePairsIsSubsequence(s: string, c: char)
    ensures Subsequence(RemovePairs(s, c), s)
  {
    hide Subsequence;
    if s == "" {
      SubsequenceSelf(s);
    } else if |s| >= 2 && s[0] == c && s[1] == c {
      RemovePairsIsSubsequence(s[2..], c);
      SubsequenceSlice(s, 2, |s|);
      assert s[2..|s|] == s[2..];
      SubsequenceTrans(RemovePairs(s, c), s[2..], s);
    } else {
      RemovePairsIsSubsequence(s[1..], c);
      assert s[1..|s|] == s[1..];
      SubsequenceSplice(s, 1, |s|, RemovePairs(s[1..], c));
      assert s[..1] + RemovePairs(s[1..], c) + s[|s|..] == RemovePairs(s, c);
    }
  }

  // ----------------------------------------------------------- plain text

  function Plain(text: string): (r: string) {
    TrimSpace(RemovePairs(RemovePairs(StripFences(text), '*'), '_'))
  }

  method MarkdownToPlainText(text: string) returns (s: string, ghost rounds: nat)
    ensures s == Plain(text)
    ensures rounds == Rounds(text)
  {
    hide TrimSpace, Index, IndexFrom, RemovePairs;
    s, rounds := text, 0;
    while true
      invariant StripFences(s) == StripFences(text)
      invariant rounds + Rounds(s) == Rounds(text)
      decreases |s|
    {
      var start := Index(s, FENCE);
      if start.None? { break; }
      var end := IndexFrom(s, FENCE, start.value + 3);
      if end.None? { break; }
      var inner := s[start.value + 3..end.value];
      var nl := Index(inner, "\n");
      ghost var next := FenceRound(s).value;
      if nl.Some? { inner := TrimSpace(inner[nl.value + 1..]); }
      s := s[..start.value] + TrimSpace(inner) + s[end.value + 3..];
      assert s == next;
      rounds := rounds + 1;
    }
    s := RemovePairs(s, '*');
    s := RemovePairs(s, '_');
    s := TrimSpace(s);
  }

  /** The text sent is a subsequence of the text given, trimmed, with no two adjacent underscores. */
  lemma PlainOnlyRemoves(text: string)
    ensures Subsequence(Plain(text), text) && Trimmed(Plain(text)) && NoPair(Plain(text), '_')
    ensures |Plain(text)| <= |text|
  {
    hide StripFences, RemovePairs, TrimSpace, Subsequence;
    var a := StripFences(text);
    var b := RemovePairs(a, '*');
    var c := RemovePairs(b, '_');
    StripFencesFixpoint(text);
    RemovePairsIsSubsequence(a, '*');
    RemovePairsIsSubsequence(b, '_');
    NoPairsLeft(b, '_');
    TrimIsSubsequence(c);
    SubsequenceTrans(b, a, text);
    SubsequenceTrans(c, b, text);
    SubsequenceTrans(TrimSpace(c), c, text);
    var x, y := TrimSplit(c);
    forall i | 0 <= i < |Plain(text)| - 1 ensures Plain(text)[i] == '_' ==> Plain(text)[i + 1] != '_' {
      assert c[|x| + i] == Plain(text)[i] && c[|x| + i + 1] == Plain(text)[i + 1];
    }
  }

  lemma {:induction false} PairsKept(s: string, c: char)
    requires c !in s
    ensures RemovePairs(s, c) == s
  {
    if s != "" {
      PairsKept(s[1..], c);
      assert s == [s[0]] + s[1..];
    }
  }

  /** Text without marks goes out as it is. */
  lemma PlainKeeps(s: string)
    requires Trimmed(s) && '`' !in s && '*' !in s && '_' !in s
    ensures Plain(s) == s
  {
    forall i ensures !At(s, FENCE, i) { NotAt(s, FENCE, i); }
    PairsKept(s, '*');
    PairsKept(s, '_');
  }

  // ----------------------------------------------------- stripping a second time

  lemma {:induction false} SameSizeKeepsAll(s: string, c: char)
    requires |RemovePairs(s, c)| == |s|
    ensures RemovePairs(s, c) == s
  {
    if s != "" {
      assert s == [s[0]] + s[1..];
      SameSizeKeepsAll(s[1..], c);
    }
  }

  lemma {:induction false} NoPairKept(s: string, c: char)
    requires NoPair(s, c)
    ensures RemovePairs(s, c) == s
  {
    if s != "" {
      assert s == [s[0]] + s[1..];
      NoPairKept(s[1..], c);
    }
  }

  lemma StripShrinks(s: string)
    ensures if TwoFences(s) then |StripFences(s)| < |s| else StripFences(s) == s
  {
    RoundIffTwoFences(s);
    if TwoFences(s) { StripFencesFixpoint(FenceRound(s).value); }
  }

  /** Stripping the result again changes nothing exactly when it holds no two disjoint fences and no two
      adjacent asterisks. */
  lemma PlainTwice(s: string)
    ensures Plain(Plain(s)) == Plain(s) <==> !TwoFences(Plain(s)) && NoPair(Plain(s), '*')
  {
    hide StripFences, RemovePairs, TrimSpace, TwoFences, NoPair, Subsequence;
    PlainOnlyRemoves(s);
    var p := Plain(s);
    TrimmedStays(p);
    var a := StripFences(p);
    var b := RemovePairs(a, '*');
    var c := RemovePairs(b, '_');
    StripShrinks(p);
    NoPairKept(p, '_');
    PairsShrink(a, '*');
    PairsShrink(b, '_');
    if NoPair(p, '*') { NoPairKept(p, '*'); }
    if Plain(p) == p {
      assert |p| <= |c| <= |b| <= |a|;
      assert !TwoFences(p);
      SameSizeKeepsAll(p, '*');
      NoPairsLeft(p, '*');
    }
  }

  lemma PairsShrink(s: string, c: char)
    ensures |RemovePairs(s, c)| <= |s|
  {
  }

  /** It may change again: removing underscores can bring asterisks together. */
  lemma PlainTwiceDiffers()
    ensures Plain("*__*") == "**" && Plain("**") == ""
  {
    forall s, i | s == "*__*" || s == "**" ensures !At(s, FENCE, i) {
      if i == 0 && s == "*__*" { assert s[0..3][0] != FENCE[0]; }
      if i == 1 && s == "*__*" { assert s[1..4][0] != FENCE[0]; }
    }
    assert StripFences("*__*") == "*__*" && StripFences("**") == "**";
    hide StripFences;
    assert RemovePairs("**", '*') == "";
    assert "*__*"[1..] == "__*" && "__*"[1..] == "_*" && "_*"[1..] == "*" && "*"[1..] == "" && "__*"[2..] == "*";
    assert RemovePairs("*", '*') == "*" && RemovePairs("_*", '*') == "_*" && RemovePairs("__*", '*') == "__*";
    assert RemovePairs("*__*", '*') == "*__*";
    assert RemovePairs("*", '_') == "*" && RemovePairs("__*", '_') == "*";
    assert RemovePairs("*__*", '_') == "**";
  }

  // ---------------------------------------------------------------- chunks

  /** The messages a text is cut into. */
  function Chunks(text: string): (r: seq<string>) {
    if text == "" then []
    else if |text| <= CHUNK then [text]
    else [text[..CHUNK]] + Chunks(text[CHUNK..])
  }

  function Concat(parts: seq<string>): (r: string) {
    if parts == [] then "" else parts[0] + Concat(parts[1..])
  }

  /** The chunks put together are the text; each has 1 to 4000 runes and all but the last have 4000. */
  lemma {:induction false} ChunksCover(text: string)
    ensures var cs := Chunks(text);
      && Concat(cs) == text
      && |cs| == (|text| + 3999) / 4000
      && (forall i | 0 <= i < |cs| :: 1 <= |cs[i]| <= 4000 && (i < |cs| - 1 ==> |cs[i]| == 4000))
  {
    if |text| > CHUNK {
      ChunksCover(text[CHUNK..]);
      assert text == text[..CHUNK] + text[CHUNK..];
      assert Chunks(text)[1..] == Chunks(text[CHUNK..]);
    } else if text != "" {
      assert Concat([text]) == text;
    }
  }

  lemma {:induction false} ChunkAt(text: string, i: nat)
    requires i * CHUNK < |text|
    ensures i < |Chunks(text)|
    ensures Chunks(text)[i] == text[i * CHUNK..if (i + 1) * CHUNK <= |text| then (i + 1) * CHUNK else |text|]
    ensures (i + 1) * CHUNK >= |text| ==> i + 1 == |Chunks(text)|
  {
    if i > 0 { ChunkAt(text[CHUNK..], i - 1); }
  }

  /** The text that goes out for a reply, and for an approval prompt. */
  function ReplyText(text: string): (r: string) {
    Plain(Truncate(text, REPLY_MAX))
  }

  function ApprovalText(body: string): (r: string) {
    ReplyText(Truncate(body, APPROVAL_MAX))
  }

  /** A reply without marks goes out as it is up to 80000 runes, and beyond that cut there and marked; an approval
      prompt is cut at 12000. */
  lemma UnmarkedText(text: string)
    requires text != "" && Trimmed(text) && '`' !in text && '*' !in text && '_' !in text
    ensures ReplyText(text) == if |text| <= 80000 then text else text[..80000] + "\n\n\U{2026}(truncated)"
    ensures ApprovalText(text) == if |text| <= 12000 then text else text[..12000] + "\n\n\U{2026}(truncated)"
  {
    CutText(text, 80000);
    CutText(text, 12000);
    var t := Truncate(text, APPROVAL_MAX);
    assert |t| <= REPLY_MAX;
    hide Plain;
  }

  lemma CutText(text: string, max: nat)
    requires max > 0 && text != "" && Trimmed(text) && '`' !in text && '*' !in text && '_' !in text
    ensures Truncate(text, max) == if |text| <= max then text else text[..max] + "\n\n\U{2026}(truncated)"
    ensures Plain(Truncate(text, max)) == Truncate(text, max)
  {
    var t := Truncate(text, max);
    if |text| > max {
      assert t[0] == text[0] && t[|t| - 1] == ')';
      assert forall c | c in t :: c in text || c in TRUNCATED;
    }
    PlainKeeps(t);
  }

  /** Sends chunk after chunk; `sends(k)` says whether the k-th send succeeds.  What was sent is a prefix of
      the chunks: all of them, or exactly those before the send that failed. */
  method SendPlainTextChunks(text: string, sends: nat -> bool) returns (sent: seq<string>, ok: bool)
    ensures var cs := Chunks(ReplyText(text));
      && sent <= cs
      && (ok <==> sent == cs)
      && (!ok ==> !sends(|sent|))
      && (forall k: nat | k < |sent| :: sends(k))
  {
    var truncated := Truncate(text, REPLY_MAX);
    var plain, _ := MarkdownToPlainText(truncated);
    assert TrimSpace(plain) == "" <==> plain == "" by { PlainOnlyRemoves(truncated); }
    sent := [];
    if TrimSpace(plain) == "" { return [], true; }
    ghost var cs := Chunks(plain);
    var i := 0;
    ghost var n := 0;
    while i < |plain|
      invariant 0 <= n <= |cs| && |sent| == n && sent == cs[..n]
      invariant i == n * CHUNK && (i >= |plain| <==> n == |cs|)
      invariant forall k: nat | k < n :: sends(k)
      decreases |plain| - i
    {
      var end := if i + CHUNK > |plain| then |plain| else i + CHUNK;
      ChunkAt(plain, n);
      if end < |plain| { ChunkAt(plain, n + 1); }
      if !sends(|sent|) { return sent, false; }
      sent := sent + [plain[i..end]];
      i := i + CHUNK;
      n := n + 1;
    }
    ok := true;
  }

  /** For any reply at most 21 messages, for any approval prompt at most 4. */
  lemma ChunkBounds(text: string)
    ensures |Chunks(ReplyText(text))| <= 21
    ensures |Chunks(ApprovalText(text))| <= 4
  {
    hide Plain;
    PlainOnlyRemoves(Truncate(text, REPLY_MAX));
    ChunksCover(ReplyText(text));
    var body := Truncate(text, APPROVAL_MAX);
    PlainOnlyRemoves(Truncate(body, REPLY_MAX));
    ChunksCover(ApprovalText(text));
  }

  /** Both bounds are reached. */
  lemma ChunkBoundsReached()
    ensures |Chunks(ReplyText(Letters(80001)))| == 21
    ensures |Chunks(ApprovalText(Letters(12001)))| == 4
  {
    hide Plain;
    LongText(REPLY_MAX);
    LongText(APPROVAL_MAX);
    ChunksCover(Letters(REPLY_MAX) + TRUNCATED);
    ChunksCover(Letters(APPROVAL_MAX) + TRUNCATED);
  }

  function Letters(n: nat): (r: string) {
    seq(n, _ => 'x')
  }

  lemma LongText(max: nat)
    requires max > 0
    ensures Truncate(Letters(max + 1), max) == Letters(max) + TRUNCATED
    ensures Plain(Letters(max) + TRUNCATED) == Letters(max) + TRUNCATED
  {
    assert Letters(max + 1)[..max] == Letters(max);
    PlainKeeps(Letters(max) + TRUNCATED);
  }
}
