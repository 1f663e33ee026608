/** What a chat reply to an approval prompt means, for one request and for a batch. */
module ApprovalParser {
  import opened Text

  datatype Choice = Denied | ApprovedOnce | ApprovedSession | ApprovedAlways

  /** `indices` is empty when the reply names no items. */
  datatype Reply = Reply(choice: Choice, indices: seq<int>, comment: string)

  const DENIED := Reply(Denied, [], "")

  const MARKER := "//"

  /** The part before the first comment marker and the part after it, both trimmed. */
  function SplitByCommentMarker(input: string): (r: (string, string)) {
    match Index(input, MARKER)
    case None => (TrimSpace(input), "")
    case Some(i) => (TrimSpace(input[..i]), TrimSpace(input[i + 2..]))
  }

  /** The reply proper: comment cut off, lower case, trimmed. */
  function Word(content: string): (r: string) {
    TrimSpace(ToLower(SplitByCommentMarker(content).0))
  }

  function Comment(content: string): (r: string) {
    SplitByCommentMarker(content).1
  }

  /** Reply to a single request.  Everything is consumed; what is not understood denies. */
  function ParseSingle(content: string): (r: Reply)
    ensures r.indices == [] && r.comment == Comment(content)
    ensures r.choice == ApprovedOnce <==> Word(content) in {"y", "yes"}
    ensures r.choice == ApprovedSession <==> Word(content) in {"s", "session"}
    ensures r.choice == ApprovedAlways <==> Word(content) in {"a", "always"}
  {
    var s := Word(content);
    assert |s| == 1 ==> s == [s[0]];
    var choice :=
      if s == "" then Denied
      else if |s| == 1 then
        if s[0] == 'y' then ApprovedOnce
        else if s[0] == 's' then ApprovedSession
        else if s[0] == 'a' then ApprovedAlways
        else Denied
      else if s == "yes" then ApprovedOnce
      else if s == "session" then ApprovedSession
      else if s == "always" then ApprovedAlways
      else Denied;
    Reply(choice, [], Comment(content))
  }

  /** Conversion to a signed 32-bit integer, which wraps around. */
  function Int32(n: int): (r: int) {
    (n + 0x8000_0000) % 0x1_0000_0000 - 0x8000_0000
  }

  predicate ValidPart(p: string, total: nat) {
    var n := Atoi(TrimSpace(p));
    n.Some? && 1 <= n.value <= total
  }

  /** The zero-based index a valid part names. */
  function PartIndex(p: string, total: nat): (r: int)
    requires ValidPart(p, total)
  {
    Int32(Atoi(TrimSpace(p)).value - 1)
  }

  /** Indices named by comma-separated parts, or None when any part is invalid. */
  function IndicesOf(parts: seq<string>, total: nat): (r: Option<seq<int>>)
    ensures r.Some? <==> forall i | 0 <= i < |parts| :: ValidPart(parts[i], total)
    ensures r.Some? ==> |r.value| == |parts| && forall i | 0 <= i < |parts| :: r.value[i] == PartIndex(parts[i], total)
  {
    if forall i | 0 <= i < |parts| :: ValidPart(parts[i], total)
    then Some(seq(|parts|, i requires 0 <= i < |parts| => PartIndex(parts[i], total)))
    else None
  }

  method ParseApprovalIndices(input: string, total: nat) returns (r: Option<seq<int>>)
    ensures r == IndicesOf(Split(input, ','), total)
  {
    hide Atoi, TrimSpace, Int32;
    var parts := Split(input, ',');
    var indices := [];
    for i := 0 to |parts|
      invariant forall j | 0 <= j < i :: ValidPart(parts[j], total)
      invariant |indices| == i
      invariant forall j | 0 <= j < i :: indices[j] == PartIndex(parts[j], total)
    {
      var n := Atoi(TrimSpace(parts[i]));
      if n.None? || n.value < 1 || n.value > total {
        assert !ValidPart(parts[i], total);
        return None;
      }
      indices := indices + [Int32(n.value - 1)];
    }
    if |indices| == 0 { return None; }
    assert indices == IndicesOf(parts, total).value;
    r := Some(indices);
  }

  /** Reply to a batch of `total` requests: a word for all of them or a list of one-based numbers. */
  function ParseBatch(content: string, total: nat): (r: Reply)
    ensures r.comment == Comment(content)
  {
    var s := Word(content);
    var c := Comment(content);
    if s == "" then Reply(Denied, [], c)
    else if s == "y" || s == "yes" then Reply(ApprovedOnce, [], c)
    else if s == "s" || s == "session" then Reply(ApprovedSession, [], c)
    else if s == "a" || s == "always" then Reply(ApprovedAlways, [], c)
    else if s == "n" || s == "no" then Reply(Denied, [], c)
    else if Contains(s, ",") || AllDigits(s) then
      match IndicesOf(Split(s, ','), total)
      case None => Reply(Denied, [], c)
      case Some(indices) => Reply(ApprovedOnce, indices, c)
    else Reply(Denied, [], c)
  }

  /** The meaning of a reply depends on the waiter: batchN is zero for a single request. */
  function ParseFor(batchN: nat, content: string): (r: Reply) {
    if batchN == 0 then ParseSingle(content) else ParseBatch(content, batchN)
  }

  // ----------------------------------------------------------- numerals in replies

  function Zeros(k: nat): (r: string) {
    seq(k, _ => '0')
  }

  /** The spellings of a positive number that are accepted: an optional plus, leading zeros, digits. */
  ghost predicate Numeral(p: string, n: nat) {
    exists sign, k {:trigger sign + Zeros(k)} :: sign in {"", "+"} && p == sign + Zeros(k) + FormatNat(n)
  }

  lemma {:induction false} ZerosValue(k: nat, s: string)
    requires AllDigits(s)
    ensures AllDigits(Zeros(k) + s) && DigitsValue(Zeros(k) + s) == DigitsValue(s)
    decreases k + |s|
  {
    var t := Zeros(k) + s;
    if s != "" {
      assert t[..|t| - 1] == Zeros(k) + s[..|s| - 1];
      ZerosValue(k, s[..|s| - 1]);
    } else if k > 0 {
      assert t[..|t| - 1] == Zeros(k - 1) + s;
      ZerosValue(k - 1, s);
    }
  }

  lemma {:induction false} DigitsAreNumeral(d: string) returns (k: nat)
    requires AllDigits(d)
    ensures DigitsValue(d) == 0 ==> d == Zeros(k)
    ensures DigitsValue(d) > 0 ==> d == Zeros(k) + FormatNat(DigitsValue(d))
  {
    if d == "" {
      k := 0;
    } else {
      var init, last := d[..|d| - 1], d[|d| - 1];
      k := DigitsAreNumeral(init);
      assert d == init + [last];
      var n := DigitsValue(d);
      assert DigitChar(DigitValue(last)) == last;
      if n == 0 {
        assert Zeros(k) + [last] == Zeros(k + 1);
        k := k + 1;
      } else if DigitsValue(init) == 0 {
        assert n < 10 && FormatNat(n) == [last];
      } else {
        assert n / 10 == DigitsValue(init) && n % 10 == DigitValue(last);
        assert FormatNat(n) == FormatNat(DigitsValue(init)) + [last];
        assert d == Zeros(k) + FormatNat(n);
      }
    }
  }

  function Unsigned(p: string): (r: string) {
    if p != "" && p[0] == '+' then p[1..] else p
  }

  lemma AtoiIsUnsigned(p: string, n: nat)
    requires 1 <= n <= INT64_MAX
    ensures Atoi(p) == Some(n) <==> AllDigits(Unsigned(p)) && DigitsValue(Unsigned(p)) == n
  {
    hide DigitsValue;
    assert DigitsValue("") == 0 by { NoDigits(); }
    if p != "" && p[0] == '-' { assert !IsDigit(Unsigned(p)[0]); }
  }

  lemma NoDigits()
    ensures DigitsValue("") == 0
  {
  }

  lemma AtoiOfNumeral(p: string, n: nat)
    requires 1 <= n <= INT64_MAX && Numeral(p, n)
    ensures Atoi(p) == Some(n)
  {
    hide FormatNat, Zeros, Atoi, DigitsValue;
    var sign, k :| sign in {"", "+"} && p == sign + Zeros(k) + FormatNat(n);
    var d := Zeros(k) + FormatNat(n);
    ZerosValue(k, FormatNat(n));
    assert p == sign + d && d != "" && IsDigit(d[0]);
    assert Unsigned(p) == d;
    AtoiIsUnsigned(p, n);
  }

  lemma NumeralOfAtoi(p: string, n: nat)
    requires 1 <= n <= INT64_MAX && Atoi(p) == Some(n)
    ensures Numeral(p, n)
  {
    hide FormatNat, Zeros, Atoi, DigitsValue, AllDigits;
    AtoiIsUnsigned(p, n);
    var d := Unsigned(p);
    var sign := if p == d then "" else "+";
    var k := DigitsAreNumeral(d);
    assert p == sign + d;
    assert p == sign + Zeros(k) + FormatNat(n);
  }

  /** The integer parser accepts exactly the numerals, each with its own value. */
  lemma AtoiNumeral(p: string, n: nat)
    requires 1 <= n <= INT64_MAX
    ensures Atoi(p) == Some(n) <==> Numeral(p, n)
  {
    hide *;
    if Atoi(p) == Some(n) { NumeralOfAtoi(p, n); }
    if Numeral(p, n) { AtoiOfNumeral(p, n); }
  }

  // ------------------------------------------------------------- main results

  /** A list reply names the numbers `ns`: one numeral a part, unsigned when it stands alone. */
  ghost predicate IsListOf(word: string, ns: seq<nat>, total: nat) {
    var parts := Split(word, ',');
    && |ns| == |parts|
    && (forall i | 0 <= i < |ns| :: 1 <= ns[i] <= total && Numeral(TrimSpace(parts[i]), ns[i]))
    && (|ns| == 1 ==> AllDigits(word))
  }

  lemma CommaMeansParts(s: string)
    ensures Contains(s, ",") <==> |Split(s, ',')| > 1
  {
    if ',' in s {
      var i :| 0 <= i < |s| && s[i] == ',';
      assert s[i..i + 1] == ",";
      assert At(s, ",", i);
      SplitAtSep(s, ',', i);
    } else {
      SplitNoSep(s, ',');
      forall i ensures !At(s, ",", i) { NotAt(s, ",", i); }
    }
  }

  lemma {:induction false} SplitAtSep(s: string, sep: char, i: nat)
    requires i < |s| && s[i] == sep
    ensures |Split(s, sep)| > 1
  {
    if i > 0 { SplitAtSep(s[1..], sep, i - 1); }
  }

  lemma IndicesOfNumerals(parts: seq<string>, ns: seq<nat>, total: nat)
    requires |ns| == |parts| && total <= INT64_MAX
    requires forall i | 0 <= i < |ns| :: 1 <= ns[i] <= total && Numeral(TrimSpace(parts[i]), ns[i])
    ensures IndicesOf(parts, total).Some? && |IndicesOf(parts, total).value| == |ns|
    ensures forall i | 0 <= i < |ns| :: IndicesOf(parts, total).value[i] == Int32(ns[i] - 1)
  {
    hide Atoi, TrimSpace, Int32;
    forall i | 0 <= i < |parts| ensures Atoi(TrimSpace(parts[i])) == Some(ns[i]) && ValidPart(parts[i], total) {
      AtoiNumeral(TrimSpace(parts[i]), ns[i]);
    }
  }

  lemma Int32Small(n: int)
    requires 0 <= n < 0x8000_0000
    ensures Int32(n) == n
  {
  }

  /** The numbers a list reply was accepted for. */
  function Shifted(indices: seq<int>): (ns: seq<nat>)
    ensures |ns| == |indices| && forall i | 0 <= i < |ns| :: indices[i] >= -1 ==> ns[i] == indices[i] + 1
  {
    seq(|indices|, i requires 0 <= i < |indices| => Nat(indices[i] + 1))
  }

  /** Every list of valid numbers approves exactly its items. */
  lemma ListApproves(content: string, total: nat, ns: seq<nat>)
    requires 0 < total <= 0x8000_0000
    requires IsListOf(Word(content), ns, total)
    ensures ns != []
    ensures ParseBatch(content, total)
      == Reply(ApprovedOnce, seq(|ns|, i requires 0 <= i < |ns| => ns[i] - 1), Comment(content))
  {
    hide Atoi, TrimSpace, Word, Comment, Int32, Numeral, ValidPart, PartIndex, IndicesOf, Contains;
    var w := Word(content);
    CommaMeansParts(w);
    IndicesOfNumerals(Split(w, ','), ns, total);
    ListIsNoKeyword(w, ns, total);
    forall i | 0 <= i < |ns| ensures Int32(ns[i] - 1) == ns[i] - 1 { Int32Small(ns[i] - 1); }
  }

  lemma ValidPartIsNumeral(p: string, total: nat)
    requires 0 < total <= 0x8000_0000 && ValidPart(p, total)
    ensures 0 <= PartIndex(p, total) < total && Numeral(TrimSpace(p), PartIndex(p, total) + 1)
  {
    hide Atoi, TrimSpace;
    var n := Atoi(TrimSpace(p)).value;
    Int32Small(n - 1);
    AtoiNumeral(TrimSpace(p), n);
  }

  /** Items are approved only by a list of valid numbers. */
  lemma ApprovedItemsAreListed(content: string, total: nat)
    requires 0 < total <= 0x8000_0000
    requires ParseBatch(content, total).indices != []
    ensures var indices := ParseBatch(content, total).indices;
      && (forall i | 0 <= i < |indices| :: 0 <= indices[i] < total)
      && IsListOf(Word(content), Shifted(indices), total)
  {
    hide Atoi, TrimSpace, Word, Comment, Split, PartIndex, ValidPart, Shifted, IndicesOf, Numeral;
    var parts := Split(Word(content), ',');
    CommaMeansParts(Word(content));
    var indices := ParseBatch(content, total).indices;
    assert indices == IndicesOf(parts, total).value;
    forall i | 0 <= i < |parts|
      ensures 0 <= indices[i] < total && Numeral(TrimSpace(parts[i]), indices[i] + 1)
    {
      ValidPartIsNumeral(parts[i], total);
    }
  }

  /** Which replies approve, and what they approve, for every text: a word approves everything, and
      items are approved one by one exactly when the reply is a list of valid numbers. */
  lemma BatchMeaning(content: string, total: nat)
    requires 0 < total <= 0x8000_0000
    ensures var r := ParseBatch(content, total); var w := Word(content);
      && (r.choice == ApprovedSession <==> w in {"s", "session"})
      && (r.choice == ApprovedAlways <==> w in {"a", "always"})
      && (r.choice == ApprovedOnce && r.indices == [] <==> w in {"y", "yes"})
      && (r.indices != [] <==> exists ns :: IsListOf(w, ns, total))
      && (r.indices != [] ==> r.choice == ApprovedOnce && IsListOf(w, Shifted(r.indices), total))
      && (forall i | 0 <= i < |r.indices| :: 0 <= r.indices[i] < total)
  {
    hide Atoi, TrimSpace, Word, IsListOf, Split;
    var r, w := ParseBatch(content, total), Word(content);
    if r.indices != [] {
      ApprovedItemsAreListed(content, total);
    }
    if ns :| IsListOf(w, ns, total) {
      ListApproves(content, total, ns);
    }
  }

  /** Whatever the size of the batch, a reply that is not one of the words and does not deny is a list of its
      numbers. */
  lemma ApprovingIsListed(content: string, total: nat)
    requires ParseBatch(content, total).choice != Denied
    requires Word(content) !in {"y", "yes", "s", "session", "a", "always"}
    ensures exists ns :: IsListOf(Word(content), ns, total)
  {
    hide Atoi, TrimSpace, Word, Comment, Numeral, Split;
    var w := Word(content);
    var parts := Split(w, ',');
    CommaMeansParts(w);
    assert IndicesOf(parts, total).Some?;
    var ns: seq<nat> := seq(|parts|, i requires 0 <= i < |parts| => PartNumber(parts[i], total));
    forall i | 0 <= i < |ns| ensures 1 <= ns[i] <= total && Numeral(TrimSpace(parts[i]), ns[i]) {
      assert ValidPart(parts[i], total);
      AtoiNumeral(TrimSpace(parts[i]), ns[i]);
    }
    assert IsListOf(w, ns, total);
  }

  /** The one-based number a valid part names. */
  function PartNumber(p: string, total: nat): (n: nat) {
    var n := Atoi(TrimSpace(p));
    if n.Some? && n.value >= 0 then n.value else 0
  }

  function Nat(n: int): (r: nat) { if n < 0 then 0 else n }

  lemma ListIsNoKeyword(w: string, ns: seq<nat>, total: nat)
    requires IsListOf(w, ns, total)
    ensures w !in {"", "y", "yes", "s", "session", "a", "always", "n", "no"}
  {
    hide FormatNat, Zeros, IsSpace;
    if ',' !in w {
      SplitNoSep(w, ',');
      var sign, k :| sign in {"", "+"} && TrimSpace(w) == sign + Zeros(k) + FormatNat(ns[0]);
      assert AllDigits(w);
      assert |TrimSpace(w)| >= |FormatNat(ns[0])| >= 1;
    }
  }

  lemma SingleNumber(n: nat, total: nat)
    requires 1 <= n <= total && n <= INT64_MAX
    ensures ParseBatch(FormatNat(n), total).indices == [Int32(n - 1)]
  {
    hide FormatNat, Atoi, TrimSpace, Word, Split, Int32, AllDigits;
    var s := FormatNat(n);
    assert Word(s) == s && Split(s, ',') == [s] && s[0] !in "yasn" && AllDigits(s) by { DigitsWord(s); }
    assert TrimSpace(s) == s by { DigitsWord(s); }
    assert Atoi(s) == Some(n) by { AtoiFormat(n); }
    assert ValidPart(s, total);
    assert IndicesOf([s], total).value == [Int32(n - 1)];
  }

  lemma DigitsWord(s: string)
    requires AllDigits(s) && s != ""
    ensures Word(s) == s && TrimSpace(s) == s && Split(s, ',') == [s] && s[0] !in "yasn"
  {
    assert ListText(s);
    assert TrimSpace(s) == s;
    WrittenWord(s, None);
    SplitNoSep(s, ',');
  }

  /** The bound on the batch size is exact: any larger batch has a reply with an index outside the batch,
      because the one-based number no longer fits the 32-bit index. */
  lemma LargeBatchWraps(total: nat)
    requires 0x8000_0000 < total
    ensures ParseBatch(FormatNat(0x8000_0001), total).indices == [-0x8000_0000]
  {
    hide FormatNat, ParseBatch, Int32, Word, Comment;
    SingleNumber(0x8000_0001, total);
    assert Int32(0x8000_0000) == -0x8000_0000 by { Int32Wrap(); }
  }

  lemma Int32Wrap()
    ensures Int32(0x8000_0000) == -0x8000_0000
  {
  }

  // ---------------------------------------------------------------- round trip

  predicate ListChar(c: char) {
    IsDigit(c) || IsSpace(c) || c == ','
  }

  predicate ListText(s: string) {
    forall i | 0 <= i < |s| :: ListChar(s[i])
  }

  /** One written item: the number with white space around it. */
  datatype Item = Item(left: string, n: nat, right: string) {
    function Text(): (r: string) { left + FormatNat(n) + right }
  }

  function Texts(items: seq<Item>): (r: seq<string>)
    ensures |r| == |items| && forall i | 0 <= i < |items| :: r[i] == items[i].Text()
  {
    seq(|items|, i requires 0 <= i < |items| => items[i].Text())
  }

  lemma {:induction false} JoinIsListText(parts: seq<string>)
    requires forall i | 0 <= i < |parts| :: ListText(parts[i])
    ensures ListText(Join(parts, ','))
  {
    if |parts| > 1 { JoinIsListText(parts[1..]); }
  }

  lemma ListTextTrim(s: string)
    requires ListText(s)
    ensures ListText(TrimSpace(s)) && ToLower(TrimSpace(s)) == TrimSpace(s)
  {
    var a, b := TrimSplit(s);
    var t := TrimSpace(s);
    forall i | 0 <= i < |t| ensures ListChar(t[i]) && LowerChar(t[i]) == t[i] { assert s[|a| + i] == t[i]; }
  }

  lemma MarkerAfter(text: string, rest: string)
    requires '/' !in text
    ensures Index(text + (MARKER + rest), MARKER) == Some(|text|)
  {
    hide IndexFrom;
    var s := text + (MARKER + rest);
    assert s[|text|..|text| + 2] == MARKER;
    assert At(s, MARKER, |text|);
    forall i | 0 <= i < |text| ensures !At(s, MARKER, i) { NotAt(s, MARKER, i); }
  }

  /** Any written list of numbers in range, with any white space around the numbers and any comment,
      approves exactly those items, in the order written. */
  lemma BatchRoundTrip(items: seq<Item>, comment: Option<string>, total: nat)
    requires items != [] && total <= 0x8000_0000
    requires forall it | it in items :: 1 <= it.n <= total && AllSpace(it.left) && AllSpace(it.right)
    ensures var text := Join(Texts(items), ',');
      ParseBatch(if comment.Some? then text + MARKER + comment.value else text, total)
      == Reply(ApprovedOnce, seq(|items|, i requires 0 <= i < |items| => items[i].n - 1),
               if comment.Some? then TrimSpace(comment.value) else "")
  {
    hide FormatNat, Atoi, TrimSpace, Word, Comment, Split, Join, ParseBatch, IsListOf, ToLower;
    var parts := Texts(items);
    var text := Join(parts, ',');
    forall i | 0 <= i < |items|
      ensures ListText(parts[i]) && ',' !in parts[i] && TrimSpace(parts[i]) == FormatNat(items[i].n)
    {
      WrittenItem(items[i]);
    }
    hide IsSpace, AllSpace, ListText;
    JoinIsListText(parts);
    var content := if comment.Some? then text + MARKER + comment.value else text;
    var said := if comment.Some? then TrimSpace(comment.value) else "";
    assert Word(content) == TrimSpace(text) && Comment(content) == said by {
      WrittenWord(text, comment);
    }
    var w := TrimSpace(text);
    SplitJoin(parts, ',');
    SplitTrimmed(text, ',');
    var ns := seq(|items|, i requires 0 <= i < |items| => items[i].n);
    assert seq(|ns|, i requires 0 <= i < |ns| => ns[i] - 1)
        == seq(|items|, i requires 0 <= i < |items| => items[i].n - 1);
    WrittenIsList(items, w, ns, total);
    assert total > 0 by { assert items[0] in items; }
    ListApproves(content, total, ns);
  }

  lemma WrittenItem(it: Item)
    requires AllSpace(it.left) && AllSpace(it.right)
    ensures ListText(it.Text()) && ',' !in it.Text() && TrimSpace(it.Text()) == FormatNat(it.n)
  {
    hide FormatNat, TrimSpace;
    TrimUnique(it.left, FormatNat(it.n), it.right);
  }

  lemma NoMarker(text: string)
    requires '/' !in text
    ensures Index(text, MARKER).None?
  {
    forall i ensures !At(text, MARKER, i) { NotAt(text, MARKER, i); }
  }

  /** Text without a slash, and a comment after the marker if there is one: what each part reads as. */
  lemma PartsRead(text: string, comment: Option<string>)
    requires '/' !in text
    ensures var content := if comment.Some? then text + "//" + comment.value else text;
      && Word(content) == TrimSpace(ToLower(TrimSpace(text)))
      && Comment(content) == if comment.Some? then TrimSpace(comment.value) else ""
  {
    hide TrimSpace, ToLower, At, Index;
    match comment
    case None => NoMarker(text);
    case Some(c) =>
      var content := text + MARKER + c;
      assert content == text + (MARKER + c);
      MarkerAfter(text, c);
      assert content[..|text|] == text && content[|text| + 2..] == c;
  }

  lemma WrittenWord(text: string, comment: Option<string>)
    requires ListText(text)
    ensures var content := if comment.Some? then text + MARKER + comment.value else text;
      Word(content) == TrimSpace(text) && Comment(content) == if comment.Some? then TrimSpace(comment.value) else ""
  {
    PartsRead(text, comment);
    ListTextTrim(text);
    hide TrimSpace, ToLower, ListText;
    TrimTwice(text);
  }

  /** A word of plain letters is understood in any mixture of cases, with any white space around it and any
      comment after the marker. */
  lemma SpokenWord(word: string, said: string, left: string, right: string, comment: Option<string>)
    requires AnyCaseOf(word, said) && AllSpace(left) && AllSpace(right) && word != ""
    ensures var text := left + said + right;
      var content := if comment.Some? then text + "//" + comment.value else text;
      Word(content) == word && Comment(content) == if comment.Some? then TrimSpace(comment.value) else ""
  {
    var text := left + said + right;
    assert Trimmed(said) && Trimmed(word);
    forall i | 0 <= i < |text| ensures text[i] != '/' { }
    LowerOfAnyCase(word, said);
    TrimUnique(left, said, right);
    hide IsSpace, TrimSpace, ToLower;
    PartsRead(text, comment);
    TrimmedStays(word);
  }

  lemma WrittenIsList(items: seq<Item>, w: string, ns: seq<nat>, total: nat)
    requires items != [] && |ns| == |items| && forall i | 0 <= i < |items| :: ns[i] == items[i].n && 1 <= ns[i] <= total
    requires TrimAll(Split(w, ',')) == TrimAll(Texts(items)) && Trimmed(w)
    requires forall i | 0 <= i < |items| :: TrimSpace(Texts(items)[i]) == FormatNat(items[i].n)
    ensures IsListOf(w, ns, total)
  {
    hide TrimSpace, FormatNat, Numeral, AllDigits;
    var parts := Split(w, ',');
    assert |parts| == |items|;
    forall i | 0 <= i < |ns| ensures Numeral(TrimSpace(parts[i]), ns[i]) {
      assert TrimAll(parts)[i] == TrimAll(Texts(items))[i];
      PlainNumeral(ns[i]);
    }
    if |ns| == 1 {
      CommaMeansParts(w);
      AloneIsItself(w);
      assert TrimAll(parts)[0] == TrimAll(Texts(items))[0];
      FormatIsDigits(ns[0]);
    }
  }

  lemma PlainNumeral(n: nat)
    ensures Numeral(FormatNat(n), n)
  {
    hide FormatNat;
    assert FormatNat(n) == "" + Zeros(0) + FormatNat(n);
  }

  lemma FormatIsDigits(n: nat)
    ensures AllDigits(FormatNat(n))
  {
  }

  lemma AloneIsItself(w: string)
    requires Trimmed(w) && |Split(w, ',')| == 1
    ensures TrimSpace(Split(w, ',')[0]) == w
  {
    hide Split, IsSpace;
    if ',' in w {
      var i :| 0 <= i < |w| && w[i] == ',';
      SplitAtSep(w, ',', i);
    }
    SplitNoSep(w, ',');
    TrimmedStays(w);
  }
}
