/** Strings as sequences of runes, with the few library operations the bridge uses:
    trimming, lower-casing, substring search, splitting and decimal numerals. */
module Text {

  datatype Option<+T> = None | Some(value: T)

  datatype Result<+T> = Ok(value: T) | Err

  // ---------------------------------------------------------------- trimming

  /** The runes that count as white space when trimming. */
  predicate IsSpace(c: char) {
    || c == '\t' || c == '\n' || c == '\U{0B}' || c == '\U{0C}' || c == '\r' || c == ' '
    || c == '\U{85}' || c == '\U{A0}' || c == '\U{1680}' || '\U{2000}' <= c <= '\U{200A}'
    || c == '\U{2028}' || c == '\U{2029}' || c == '\U{202F}' || c == '\U{205F}' || c == '\U{3000}'
  }

  predicate AllSpace(s: string) {
    forall i | 0 <= i < |s| :: IsSpace(s[i])
  }

  /** No white space at either end. */
  predicate Trimmed(s: string) {
    s == "" || (!IsSpace(s[0]) && !IsSpace(s[|s| - 1]))
  }

  /** Cuts white space off the left, then off the right. */
  function TrimSpace(s: string): (r: string)
    ensures Trimmed(r) && |r| <= |s|
    decreases |s|
  {
    if s != "" && IsSpace(s[0]) then TrimSpace(s[1..])
    else if s != "" && IsSpace(s[|s| - 1]) then TrimSpace(s[..|s| - 1])
    else s
  }

  predicate Blank(s: string) {
    TrimSpace(s) == ""
  }

  /** The first string that is not blank, trimmed; empty when there is none. */
  function FirstNonBlank(ss: seq<string>): (r: string)
    ensures Trimmed(r)
  {
    if ss == [] then "" else if !Blank(ss[0]) then TrimSpace(ss[0]) else FirstNonBlank(ss[1..])
  }

  /** What `FirstNonBlank` finds: the trim of the first entry that is not blank, and nothing exactly when all
      are blank. */
  lemma {:induction false} FirstNonBlankIs(ss: seq<string>)
    ensures FirstNonBlank(ss) == "" <==> forall i | 0 <= i < |ss| :: Blank(ss[i])
    ensures FirstNonBlank(ss) != "" ==>
      exists i :: 0 <= i < |ss| && FirstNonBlank(ss) == TrimSpace(ss[i]) && forall j | 0 <= j < i :: Blank(ss[j])
  {
    hide TrimSpace;
    if ss != [] {
      FirstNonBlankIs(ss[1..]);
      if !Blank(ss[0]) {
        assert FirstNonBlank(ss) == TrimSpace(ss[0]);
      } else if FirstNonBlank(ss) != "" {
        var i :| 0 <= i < |ss| - 1 && FirstNonBlank(ss[1..]) == TrimSpace(ss[1..][i])
                 && forall j | 0 <= j < i :: Blank(ss[1..][j]);
        forall j | 0 <= j < i + 1 ensures Blank(ss[j]) {
          if j > 0 { assert ss[1..][j - 1] == ss[j]; }
        }
        assert FirstNonBlank(ss) == TrimSpace(ss[i + 1]);
      } else {
        forall i | 0 <= i < |ss| ensures Blank(ss[i]) {
          if i > 0 { assert ss[1..][i - 1] == ss[i]; }
        }
      }
    }
  }

  lemma TrimmedStays(s: string)
    requires Trimmed(s)
    ensures TrimSpace(s) == s
  {
  }

  /** Any way of cutting white space off both ends that leaves a trimmed middle is the trim. */
  lemma {:induction false} TrimUnique(a: string, m: string, b: string)
    requires AllSpace(a) && AllSpace(b) && Trimmed(m)
    ensures TrimSpace(a + m + b) == m
    decreases |a| + |b|
  {
    hide IsSpace;
    var s := a + m + b;
    if a != "" {
      assert s[1..] == a[1..] + m + b;
      TrimUnique(a[1..], m, b);
    } else if b != "" {
      if m == "" {
        assert s[1..] == a + m + b[1..];
        TrimUnique(a, m, b[1..]);
      } else {
        assert s[0] == m[0] && s[|s| - 1] == b[|b| - 1];
        assert s[..|s| - 1] == a + m + b[..|b| - 1];
        TrimUnique(a, m, b[..|b| - 1]);
      }
    } else {
      assert s == m;
    }
  }

  lemma SplitOneLeft(s: string, t: string, a: string, b: string)
    requires s != "" && IsSpace(s[0]) && s[1..] == a + t + b && AllSpace(a)
    ensures s == ([s[0]] + a) + t + b && AllSpace([s[0]] + a)
  {
    hide IsSpace;
    assert s == [s[0]] + s[1..];
  }

  lemma SplitOneRight(s: string, t: string, a: string, b: string)
    requires s != "" && IsSpace(s[|s| - 1]) && s[..|s| - 1] == a + t + b && AllSpace(b)
    ensures s == a + t + (b + [s[|s| - 1]]) && AllSpace(b + [s[|s| - 1]])
  {
    hide IsSpace;
    assert s == s[..|s| - 1] + [s[|s| - 1]];
  }

  /** What trimming removes: white space on the left and on the right, nothing else. */
  lemma {:induction false} TrimSplit(s: string) returns (a: string, b: string)
    ensures s == a + TrimSpace(s) + b && AllSpace(a) && AllSpace(b)
    decreases |s|
  {
    hide IsSpace, AllSpace;
    if s != "" && IsSpace(s[0]) {
      a, b := TrimSplit(s[1..]);
      SplitOneLeft(s, TrimSpace(s), a, b);
      a := [s[0]] + a;
    } else if s != "" && IsSpace(s[|s| - 1]) {
      a, b := TrimSplit(s[..|s| - 1]);
      SplitOneRight(s, TrimSpace(s), a, b);
      b := b + [s[|s| - 1]];
    } else {
      a, b := "", "";
      NothingIsSpace();
    }
  }

  lemma NothingIsSpace()
    ensures AllSpace("")
  {
  }

  lemma TrimTwice(s: string)
    ensures TrimSpace(TrimSpace(s)) == TrimSpace(s)
  {
    var t := TrimSpace(s);
    TrimUnique("", t, "");
    assert "" + t + "" == t;
  }

  /** Extra white space outside never changes the trim. */
  lemma TrimPadded(a: string, s: string, b: string)
    requires AllSpace(a) && AllSpace(b)
    ensures TrimSpace(a + s + b) == TrimSpace(s)
  {
    var x, y := TrimSplit(s);
    assert a + s + b == (a + x) + TrimSpace(s) + (y + b);
    TrimUnique(a + x, TrimSpace(s), y + b);
  }

  // ------------------------------------------------------------ lower-casing

  /** Lower-casing of one rune.  Upper-case ASCII letters map to lower case; the two runes outside
      ASCII that lower to an ASCII letter are listed; other runes keep themselves, which no test made
      on a lower-cased string can tell from their true lower case. */
  function LowerChar(c: char): (r: char)
    ensures IsSpace(c) <==> IsSpace(r)
    ensures r == ',' <==> c == ','
  {
    if 'A' <= c <= 'Z' then ((c as int) + 32) as char
    else if c == '\U{0130}' then 'i'
    else if c == '\U{212A}' then 'k'
    else c
  }

  function ToLower(s: string): (r: string)
    ensures |r| == |s| && forall i | 0 <= i < |s| :: r[i] == LowerChar(s[i])
  {
    seq(|s|, i requires 0 <= i < |s| => LowerChar(s[i]))
  }

  /** A word in any mixture of cases. */
  predicate AnyCaseOf(word: string, s: string) {
    |s| == |word| && forall i | 0 <= i < |s| ::
      'a' <= word[i] <= 'z' && (s[i] == word[i] || s[i] as int + 32 == word[i] as int)
  }

  /** However a word of plain letters is capitalized, lower-casing gives the word. */
  lemma LowerOfAnyCase(word: string, s: string)
    requires AnyCaseOf(word, s)
    ensures ToLower(s) == word
  {
    forall i | 0 <= i < |s| ensures LowerChar(s[i]) == word[i] { }
  }

  // --------------------------------------------------------------- searching

  predicate At(s: string, pat: string, i: int) {
    0 <= i && i + |pat| <= |s| && s[i..i + |pat|] == pat
  }

  predicate Contains(s: string, pat: string) {
    exists i | 0 <= i <= |s| :: At(s, pat, i)
  }

  predicate HasPrefix(s: string, pat: string) {
    At(s, pat, 0)
  }

  predicate HasSuffix(s: string, pat: string) {
    At(s, pat, |s| - |pat|)
  }

  lemma NotAtBy(s: string, pat: string, i: int, j: nat)
    requires j < |pat|
    requires 0 <= i && i + j < |s| ==> s[i + j] != pat[j]
    ensures !At(s, pat, i)
  {
    if 0 <= i && i + |pat| <= |s| { assert s[i..i + |pat|][j] == s[i + j]; }
  }

  lemma NotAt(s: string, pat: string, i: int)
    requires pat != ""
    requires 0 <= i < |s| ==> s[i] != pat[0]
    ensures !At(s, pat, i)
  {
    NotAtBy(s, pat, i, 0);
  }

  /** First index at or after `from` where `pat` occurs. */
  function IndexFrom(s: string, pat: string, from: nat): (r: Option<nat>)
    requires from <= |s|
    ensures r.Some? ==> from <= r.value && At(s, pat, r.value) && forall i | from <= i < r.value :: !At(s, pat, i)
    ensures r.None? ==> forall i | from <= i :: !At(s, pat, i)
    decreases |s| - from
  {
    if At(s, pat, from) then Some(from)
    else if from == |s| then None
    else IndexFrom(s, pat, from + 1)
  }

  function Index(s: string, pat: string): (r: Option<nat>)
    ensures r.Some? ==> At(s, pat, r.value) && forall i | 0 <= i < r.value :: !At(s, pat, i)
    ensures r.None? ==> forall i | 0 <= i :: !At(s, pat, i)
  {
    IndexFrom(s, pat, 0)
  }

  // --------------------------------------------------------------- splitting

  function Join(parts: seq<string>, sep: char): (r: string) {
    if parts == [] then "" else if |parts| == 1 then parts[0] else parts[0] + [sep] + Join(parts[1..], sep)
  }

  /** One more rune in front of pieces already split. */
  function Push(c: char, sep: char, rest: seq<string>): (r: seq<string>)
    requires rest != []
    ensures r != []
  {
    if c == sep then [""] + rest else [[c] + rest[0]] + rest[1..]
  }

  function Split(s: string, sep: char): (r: seq<string>)
    ensures r != []
  {
    if s == "" then [""] else Push(s[0], sep, Split(s[1..], sep))
  }

  lemma {:induction false} SplitNoSep(s: string, sep: char)
    requires sep !in s
    ensures Split(s, sep) == [s]
  {
    if s != "" {
      SplitNoSep(s[1..], sep);
      assert s == [s[0]] + s[1..];
    }
  }

  lemma {:induction false} SplitFirst(a: string, s: string, sep: char)
    requires sep !in a
    ensures Split(a + s, sep) == [a + Split(s, sep)[0]] + Split(s, sep)[1..]
  {
    if a == "" {
      assert a + s == s && a + Split(s, sep)[0] == Split(s, sep)[0];
    } else {
      assert (a + s)[1..] == a[1..] + s && (a + s)[0] == a[0];
      SplitFirst(a[1..], s, sep);
      assert [a[0]] + (a[1..] + Split(s, sep)[0]) == a + Split(s, sep)[0];
    }
  }

  /** The pieces with `b` put after the last one. */
  function AppendLast(p: seq<string>, b: string): (r: seq<string>)
    requires p != []
    ensures r != []
  {
    p[..|p| - 1] + [p[|p| - 1] + b]
  }

  lemma PushAppendLast(c: char, sep: char, p: seq<string>, b: string)
    requires p != []
    ensures Push(c, sep, AppendLast(p, b)) == AppendLast(Push(c, sep, p), b)
  {
    if c == sep {
      assert [""] + p[..|p| - 1] == ([""] + p)[..|p|];
    } else if |p| == 1 {
      assert [c] + (p[0] + b) == ([c] + p[0]) + b;
    }
  }

  lemma {:induction false} SplitLast(s: string, b: string, sep: char)
    requires sep !in b
    ensures Split(s + b, sep) == AppendLast(Split(s, sep), b)
  {
    if s == "" {
      assert s + b == b;
      SplitNoSep(b, sep);
    } else {
      hide AppendLast, Push;
      assert (s + b)[1..] == s[1..] + b && (s + b)[0] == s[0];
      SplitLast(s[1..], b, sep);
      PushAppendLast(s[0], sep, Split(s[1..], sep), b);
    }
  }

  /** Splitting undoes joining when no part contains the separator. */
  lemma {:induction false} SplitJoin(parts: seq<string>, sep: char)
    requires parts != []
    requires forall p | p in parts :: sep !in p
    ensures Split(Join(parts, sep), sep) == parts
  {
    if |parts| == 1 {
      SplitNoSep(parts[0], sep);
    } else {
      var tail := Join(parts[1..], sep);
      SplitJoin(parts[1..], sep);
      assert Join(parts, sep) == parts[0] + ([sep] + tail);
      SplitFirst(parts[0], [sep] + tail, sep);
      assert ([sep] + tail)[1..] == tail;
      assert parts[0] + Split([sep] + tail, sep)[0] == parts[0];
      assert Split(Join(parts, sep), sep) == [parts[0]] + parts[1..];
    }
  }

  lemma SplitLeadingSpace(a: string, s: string, sep: char)
    requires AllSpace(a) && !IsSpace(sep)
    ensures TrimAll(Split(a + s, sep)) == TrimAll(Split(s, sep))
  {
    hide IsSpace, TrimSpace, Split;
    assert sep !in a;
    SplitFirst(a, s, sep);
    TrimFirst(a, Split(s, sep));
  }

  lemma TrimFirst(a: string, p: seq<string>)
    requires AllSpace(a) && p != []
    ensures TrimAll([a + p[0]] + p[1..]) == TrimAll(p)
  {
    hide TrimSpace, AllSpace;
    NothingIsSpace();
    TrimPadded(a, p[0], "");
    assert a + p[0] + "" == a + p[0];
  }

  lemma SplitTrailingSpace(s: string, b: string, sep: char)
    requires AllSpace(b) && !IsSpace(sep)
    ensures TrimAll(Split(s + b, sep)) == TrimAll(Split(s, sep))
  {
    hide Split, TrimSpace;
    assert sep !in b;
    SplitLast(s, b, sep);
    TrimAppendLast(Split(s, sep), b);
  }

  lemma TrimAppendLast(p: seq<string>, b: string)
    requires AllSpace(b) && p != []
    ensures TrimAll(AppendLast(p, b)) == TrimAll(p)
  {
    hide TrimSpace, AllSpace;
    var last := p[|p| - 1];
    TrimPadded("", last, b);
    assert "" + last + b == last + b;
  }

  /** Trimming the whole string first does not change the trimmed pieces. */
  lemma SplitTrimmed(s: string, sep: char)
    requires !IsSpace(sep)
    ensures TrimAll(Split(TrimSpace(s), sep)) == TrimAll(Split(s, sep))
  {
    var a, b := TrimSplit(s);
    SplitLeadingSpace(a, TrimSpace(s), sep);
    SplitTrailingSpace(a + TrimSpace(s), b, sep);
  }

  function TrimAll(parts: seq<string>): (r: seq<string>)
    ensures |r| == |parts| && forall i | 0 <= i < |parts| :: r[i] == TrimSpace(parts[i])
  {
    seq(|parts|, i requires 0 <= i < |parts| => TrimSpace(parts[i]))
  }

  // ---------------------------------------------------------------- numerals

  const INT64_MAX := 0x7FFF_FFFF_FFFF_FFFF
  const INT64_MIN := -0x8000_0000_0000_0000

  predicate IsDigit(c: char) { '0' <= c <= '9' }

  predicate AllDigits(s: string) {
    forall i | 0 <= i < |s| :: IsDigit(s[i])
  }

  function DigitValue(c: char): (v: nat)
    requires IsDigit(c)
    ensures v < 10
  {
    (c as int) - ('0' as int)
  }

  function DigitChar(d: nat): (c: char)
    requires d < 10
    ensures IsDigit(c) && DigitValue(c) == d
  {
    (d + ('0' as int)) as char
  }

  /** Decimal value of a string of digits. */
  function DigitsValue(s: string): (r: nat)
    requires AllDigits(s)
  {
    if s == "" then 0 else 10 * DigitsValue(s[..|s| - 1]) + DigitValue(s[|s| - 1])
  }

  /** Decimal printing of a natural number, without leading zeros. */
  function FormatNat(n: nat): (s: string)
    ensures s != "" && AllDigits(s) && DigitsValue(s) == n
  {
    if n < 10 then [DigitChar(n)]
    else
      var q := FormatNat(n / 10);
      var s := q + [DigitChar(n % 10)];
      assert s[..|s| - 1] == q;
      s
  }

  function FormatInt(n: int): (s: string)
    ensures s != ""
  {
    if n < 0 then "-" + FormatNat(-n) else FormatNat(n)
  }

  /** Decimal parsing into a 64-bit signed integer: optional sign, at least one digit, in range. */
  function Atoi(s: string): (r: Option<int>)
    ensures r.Some? ==> INT64_MIN <= r.value <= INT64_MAX
  {
    var signed := s != "" && (s[0] == '-' || s[0] == '+');
    var digits := if signed then s[1..] else s;
    if digits == "" || !AllDigits(digits) then None
    else
      var d: int := DigitsValue(digits);
      var v := if signed && s[0] == '-' then -d else d;
      if INT64_MIN <= v <= INT64_MAX then Some(v) else None
  }

  /** Numbers are printed in decimal, most significant digit first, without leading zeros. */
  lemma Decimal(n: nat)
    ensures n < 10 ==> FormatNat(n) == ["0123456789"[n]]
    ensures n >= 10 ==> FormatNat(n) == FormatNat(n / 10) + ["0123456789"[n % 10]]
    ensures FormatInt(n) == FormatNat(n) && (n > 0 ==> FormatInt(-(n as int)) == "-" + FormatNat(n))
  {
  }

  /** The runes below 256 that count as white space, by their codes; of the others only the spaces, line and
      paragraph separators do. */
  lemma WhiteSpace(c: char)
    ensures c as int < 256 ==> (IsSpace(c) <==> 9 <= c as int <= 13 || c as int in {32, 133, 160})
    ensures c as int >= 256 ==> (IsSpace(c) <==>
      0x2000 <= c as int <= 0x200A || c as int in {0x1680, 0x2028, 0x2029, 0x202F, 0x205F, 0x3000})
  {
  }

  /** Parsing undoes printing on the whole 64-bit range. */
  lemma AtoiFormat(n: int)
    requires INT64_MIN <= n <= INT64_MAX
    ensures Atoi(FormatInt(n)) == Some(n)
  {
    var s := FormatInt(n);
    if n < 0 {
      assert s[1..] == FormatNat(-n);
    } else {
      assert IsDigit(s[0]);
    }
  }
}
