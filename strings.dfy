/**
  The parts of Go's `strings` and `strconv` packages that the controller
  uses, at the level of characters: `Split`, `Atoi`, `ToLower`,
  `ReplaceAll`, `TrimPrefix`, `TrimSuffix`, `Title`, `TrimSpace`, and the
  decimal formatting of a counter.  Case mapping covers ASCII letters only.
*/
module GoStrings {
  import opened Wrappers

  // ---------------------------------------------------------------------
  // strings.Split with a one-character separator

  /** The first position of `c` in `s`. */
  function IndexOf(s: string, c: char): (i: nat)
    requires c in s
    ensures i < |s| && s[i] == c && c !in s[..i]
  {
    if s[0] == c then 0 else 1 + IndexOf(s[1..], c)
  }

  /** strings.Join with a one-character separator (the inverse of Split). */
  function Join(parts: seq<string>, sep: char): string
    requires |parts| >= 1
  {
    if |parts| == 1 then parts[0] else parts[0] + [sep] + Join(parts[1..], sep)
  }

  /**
    strings.Split(s, sep): the pieces of `s` between occurrences of `sep`.
    As in Go, the empty string splits into one empty piece.
  */
  function Split(s: string, sep: char): (parts: seq<string>)
    ensures |parts| >= 1
    ensures forall i :: 0 <= i < |parts| ==> sep !in parts[i]
    ensures Join(parts, sep) == s
    ensures |parts| == 1 <==> sep !in s
    decreases |s|
  {
    if sep !in s then [s]
    else
      var i := IndexOf(s, sep);
      var rest := Split(s[i + 1..], sep);
      assert s == s[..i] + [sep] + s[i + 1..];
      [s[..i]] + rest
  }

  /** Splitting a piece, the separator and a remainder peels the piece off. */
  lemma {:induction false} SplitCons(a: string, sep: char, rest: string)
    requires sep !in a
    ensures Split(a + [sep] + rest, sep) == [a] + Split(rest, sep)
  {
    var s := a + [sep] + rest;
    assert s[|a|] == sep;
    assert s[..|a|] == a;
    assert s[|a| + 1..] == rest;
  }

  /** Split undoes Join when no piece contains the separator. */
  lemma {:induction false} SplitJoin(parts: seq<string>, sep: char)
    requires |parts| >= 1
    requires forall i :: 0 <= i < |parts| ==> sep !in parts[i]
    ensures Split(Join(parts, sep), sep) == parts
    decreases |parts|
  {
    if |parts| > 1 {
      var tail := parts[1..];
      assert forall i :: 0 <= i < |tail| ==> tail[i] == parts[i + 1];
      SplitJoin(tail, sep);
      var joined := Join(tail, sep);
      assert Join(parts, sep) == parts[0] + [sep] + joined;
      SplitCons(parts[0], sep, joined);
      assert [parts[0]] + tail == parts;
    }
  }

  // ---------------------------------------------------------------------
  // strconv.Atoi and decimal formatting

  const MinInt64: int := -0x8000_0000_0000_0000
  const MaxInt64: int := 0x7FFF_FFFF_FFFF_FFFF

  predicate IsDigit(c: char) { '0' <= c <= '9' }

  predicate AllDigits(s: string) { forall i :: 0 <= i < |s| ==> IsDigit(s[i]) }

  function DigitValue(c: char): nat
    requires IsDigit(c)
  {
    c as int - '0' as int
  }

  /** The value of a string of decimal digits, most significant first. */
  function DigitsValue(s: string): nat
    requires AllDigits(s)
  {
    if s == [] then 0 else DigitsValue(s[..|s| - 1]) * 10 + DigitValue(s[|s| - 1])
  }

  function DigitChar(d: nat): (c: char)
    requires d < 10
    ensures IsDigit(c) && DigitValue(c) == d
  {
    ('0' as int + d) as char
  }

  /** strconv.Itoa on a natural number: its shortest decimal form. */
  function FormatNat(n: nat): (s: string)
    ensures |s| >= 1 && AllDigits(s) && DigitsValue(s) == n
    ensures n > 0 ==> s[0] != '0'
  {
    if n < 10 then [DigitChar(n)]
    else
      var prefix := FormatNat(n / 10);
      var s := prefix + [DigitChar(n % 10)];
      assert s[..|s| - 1] == prefix;
      s
  }

  /** Different numbers have different decimal forms. */
  lemma FormatNatInjective(m: nat, n: nat)
    ensures FormatNat(m) == FormatNat(n) <==> m == n
  {
    if FormatNat(m) == FormatNat(n) {
      assert DigitsValue(FormatNat(m)) == DigitsValue(FormatNat(n));
    }
  }

  /**
    strconv.Atoi on a 64-bit platform: an optional sign followed by one or
    more decimal digits whose value fits in an int64; None for anything else
    (the syntax and range errors).
  */
  function Atoi(s: string): (r: Option<int>)
    ensures r.Some? ==> MinInt64 <= r.value <= MaxInt64
    ensures r.Some? ==> s != [] && IsDigit(s[|s| - 1])
  {
    if s == [] then None
    else
      var negative := s[0] == '-';
      var digits := if s[0] == '-' || s[0] == '+' then s[1..] else s;
      if digits == [] || !AllDigits(digits) then None
      else
        var magnitude: int := DigitsValue(digits);
        var v := if negative then -magnitude else magnitude;
        if MinInt64 <= v <= MaxInt64 then Some(v) else None
  }

  /** Atoi reads back what FormatNat writes, for every value an int64 holds. */
  lemma AtoiFormatNat(n: nat)
    requires n <= MaxInt64
    ensures Atoi(FormatNat(n)) == Some(n)
  {
    var s := FormatNat(n);
    assert IsDigit(s[0]);
  }

  /** A string with any character outside sign and digits is rejected. */
  lemma AtoiRejectsNonDigit(s: string, k: nat)
    requires 0 < k < |s| && !IsDigit(s[k])
    ensures Atoi(s) == None
  {
    var digits := if s[0] == '-' || s[0] == '+' then s[1..] else s;
    assert digits[k - (|s| - |digits|)] == s[k];
  }

  // ---------------------------------------------------------------------
  // strings.ToLower and strings.ReplaceAll

  function ToLowerChar(c: char): char
  {
    if 'A' <= c <= 'Z' then (c as int + 32) as char else c
  }

  /** strings.ToLower, for ASCII letters. */
  function ToLower(s: string): (r: string)
    ensures |r| == |s|
  {
    if s == [] then [] else ToLower(s[..|s| - 1]) + [ToLowerChar(s[|s| - 1])]
  }

  /** ToLower works character by character. */
  lemma {:induction false} ToLowerAt(s: string)
    ensures forall i :: 0 <= i < |s| ==> ToLower(s)[i] == ToLowerChar(s[i])
  {
    if s != [] {
      ToLowerAt(s[..|s| - 1]);
    }
  }

  /** strings.ReplaceAll(s, from, to) for one-character `from` and `to`. */
  function ReplaceAll(s: string, from: char, to: char): (r: string)
    ensures |r| == |s|
  {
    if s == [] then []
    else
      var c := s[|s| - 1];
      ReplaceAll(s[..|s| - 1], from, to) + [if c == from then to else c]
  }

  /** ReplaceAll puts `to` exactly where `s` has `from` and keeps every other character. */
  lemma {:induction false} ReplaceAllAt(s: string, from: char, to: char)
    ensures forall i :: 0 <= i < |s| ==>
      ReplaceAll(s, from, to)[i] == if s[i] == from then to else s[i]
  {
    if s != [] {
      ReplaceAllAt(s[..|s| - 1], from, to);
    }
  }

  // ---------------------------------------------------------------------
  // strings.TrimPrefix and strings.TrimSuffix

  /** strings.TrimPrefix: drops `prefix` once if `s` starts with it. */
  function TrimPrefix(s: string, prefix: string): (r: string)
    ensures prefix <= s ==> s == prefix + r
    ensures !(prefix <= s) ==> r == s
  {
    if prefix <= s then s[|prefix|..] else s
  }

  /** strings.TrimSuffix: drops `suffix` once if `s` ends with it. */
  function TrimSuffix(s: string, suffix: string): (r: string)
    ensures HasSuffix(s, suffix) ==> s == r + suffix
    ensures !HasSuffix(s, suffix) ==> r == s
  {
    if HasSuffix(s, suffix) then s[..|s| - |suffix|] else s
  }

  predicate HasSuffix(s: string, suffix: string)
  {
    |suffix| <= |s| && s[|s| - |suffix|..] == suffix
  }

  // ---------------------------------------------------------------------
  // strings.Title and strings.TrimSpace

  /** unicode.IsSpace: the characters with the Unicode White_Space property. */
  predicate IsSpace(c: char)
  {
    || '\U{0009}' <= c <= '\U{000D}'
    || c == ' ' || c == '\U{0085}' || c == '\U{00A0}' || c == '\U{1680}'
    || '\U{2000}' <= c <= '\U{200A}'
    || c == '\U{2028}' || c == '\U{2029}' || c == '\U{202F}' || c == '\U{205F}' || c == '\U{3000}'
  }

  predicate IsAsciiAlnum(c: char)
  {
    ('0' <= c <= '9') || ('a' <= c <= 'z') || ('A' <= c <= 'Z')
  }

  /**
    The word-boundary test of strings.Title: ASCII letters, digits and '_'
    continue a word, every other ASCII character ends one; beyond ASCII,
    only white space (letters and digits are never spaces) ends a word.
  */
  predicate IsSeparator(c: char)
  {
    if c as int <= 0x7F then !(IsAsciiAlnum(c) || c == '_') else IsSpace(c)
  }

  function ToTitleChar(c: char): char
  {
    if 'a' <= c <= 'z' then (c as int - 32) as char else c
  }

  /** What strings.Title makes of `c` when `prev` comes before it. */
  function TitleChar(prev: char, c: char): char
  {
    if IsSeparator(prev) then ToTitleChar(c) else c
  }

  /** After a separator the character is title-cased. */
  lemma TitleAfterSeparator(prev: char, c: char)
    requires IsSeparator(prev)
    ensures TitleChar(prev, c) == ToTitleChar(c)
  {
  }

  /** A separator is never a lower-case letter, so Title keeps it. */
  lemma TitleKeepsSeparator(prev: char, c: char)
    requires IsSeparator(c)
    ensures TitleChar(prev, c) == c
  {
  }

  /** The character strings.Title looks at before position i: the previous one, or a space. */
  function Before(s: string, i: nat): char
    requires i < |s|
  {
    if i == 0 then ' ' else s[i - 1]
  }

  /**
    strings.Title: every letter that starts a word is upper-cased (ASCII),
    everything else is kept.
  */
  function Title(s: string): (r: string)
    ensures |r| == |s|
  {
    if s == [] then [] else Title(s[..|s| - 1]) + [TitleChar(Before(s, |s| - 1), s[|s| - 1])]
  }

  /** Title decides each character by the one before it. */
  lemma {:induction false} TitleAt(s: string)
    ensures forall i :: 0 <= i < |s| ==> Title(s)[i] == TitleChar(Before(s, i), s[i])
  {
    if s != [] {
      var p := s[..|s| - 1];
      TitleAt(p);
      assert forall i :: 0 <= i < |p| ==> Before(p, i) == Before(s, i);
    }
  }

  /** ToLower, ReplaceAll and (after a word boundary) Title work piece by piece. */
  lemma ToLowerAppend(a: string, b: string)
    ensures ToLower(a + b) == ToLower(a) + ToLower(b)
  {
    ToLowerAt(a + b);
    ToLowerAt(a);
    ToLowerAt(b);
    Concatenation(ToLower(a + b), ToLower(a), ToLower(b));
  }

  lemma ReplaceAllAppend(a: string, b: string, from: char, to: char)
    ensures ReplaceAll(a + b, from, to) == ReplaceAll(a, from, to) + ReplaceAll(b, from, to)
  {
    ReplaceAllAt(a + b, from, to);
    ReplaceAllAt(a, from, to);
    ReplaceAllAt(b, from, to);
    Concatenation(ReplaceAll(a + b, from, to), ReplaceAll(a, from, to), ReplaceAll(b, from, to));
  }

  lemma TitleAppend(a: string, b: string)
    requires (a != [] && IsSeparator(a[|a| - 1])) || (b != [] && IsSeparator(b[0]))
    ensures Title(a + b) == Title(a) + Title(b)
  {
    TitleAppendLeft(a, b);
    TitleAppendRight(a, b);
    Concatenation(Title(a + b), Title(a), Title(b));
  }

  /** A sequence that agrees with x and then with y, position by position, is x + y. */
  lemma Concatenation<T>(r: seq<T>, x: seq<T>, y: seq<T>)
    requires |r| == |x| + |y|
    requires forall i :: 0 <= i < |x| ==> r[i] == x[i]
    requires forall j :: 0 <= j < |y| ==> r[|x| + j] == y[j]
    ensures r == x + y
  {
    forall k | |x| <= k < |r| ensures r[k] == (x + y)[k] {
      assert r[|x| + (k - |x|)] == y[k - |x|];
    }
  }

  lemma TitleAppendLeft(a: string, b: string)
    ensures forall i :: 0 <= i < |a| ==> Title(a + b)[i] == Title(a)[i]
  {
    TitleAt(a + b);
    TitleAt(a);
    forall i | 0 <= i < |a| ensures Title(a + b)[i] == Title(a)[i] {
      assert Before(a + b, i) == Before(a, i);
    }
  }

  lemma TitleAppendRight(a: string, b: string)
    requires (a != [] && IsSeparator(a[|a| - 1])) || (b != [] && IsSeparator(b[0]))
    ensures forall j :: 0 <= j < |b| ==> Title(a + b)[|a| + j] == Title(b)[j]
  {
    forall j | 0 <= j < |b| ensures Title(a + b)[|a| + j] == Title(b)[j] {
      TitleAppendAt(a, b, j);
    }
  }

  lemma TitleAppendAt(a: string, b: string, j: nat)
    requires (a != [] && IsSeparator(a[|a| - 1])) || (b != [] && IsSeparator(b[0]))
    requires j < |b|
    ensures Title(a + b)[|a| + j] == Title(b)[j]
  {
    var s := a + b;
    var i := |a| + j;
    TitleAt(s);
    TitleAt(b);
    if j == 0 {
      assert s[i] == b[0];
      if IsSeparator(b[0]) {
        TitleKeepsSeparator(Before(s, i), b[0]);
        TitleKeepsSeparator(Before(b, 0), b[0]);
      } else {
        assert Before(s, i) == a[|a| - 1];
        TitleAfterSeparator(a[|a| - 1], b[0]);
        TitleAfterSeparator(Before(b, 0), b[0]);
      }
    } else {
      assert Before(s, i) == Before(b, j);
    }
  }

  /** Title works on each side of a space independently. */
  lemma TitleSpaced(u: string, v: string)
    ensures Title(u + " " + v) == Title(u) + " " + Title(v)
  {
    assert IsSeparator(' ');
    assert u + " " + v == u + (" " + v);
    TitleAppend(u, " " + v);
    TitleAppend(" ", v);
    TitleFirst(" ");
    HeadTail(Title(" "), ' ', []);
  }

  predicate LowerCase(s: string) { forall i :: 0 <= i < |s| ==> !('A' <= s[i] <= 'Z') }

  /** ToLower leaves a string without upper-case letters as it is. */
  lemma ToLowerKeepsLowerCase(s: string)
    requires LowerCase(s)
    ensures ToLower(s) == s
  {
    ToLowerAt(s);
  }

  /** ReplaceAll leaves a string without `from` as it is. */
  lemma ReplaceAllAbsent(s: string, from: char, to: char)
    requires from !in s
    ensures ReplaceAll(s, from, to) == s
  {
    ReplaceAllAt(s, from, to);
  }

  /** Title capitalises a single word of ASCII letters and digits at its first letter. */
  lemma TitleWord(w: string)
    requires w != [] && forall i :: 0 <= i < |w| ==> IsAsciiAlnum(w[i])
    ensures Title(w) == [ToTitleChar(w[0])] + w[1..]
  {
    TitleFirst(w);
    TitleInsideWord(w);
    HeadTail(Title(w), ToTitleChar(w[0]), w[1..]);
  }

  lemma AlnumIsNotSeparator(c: char)
    requires IsAsciiAlnum(c)
    ensures !IsSeparator(c)
  {
  }

  lemma HeadTail(r: string, c: char, t: string)
    requires |r| >= 1 && r[0] == c && r[1..] == t
    ensures r == [c] + t
  {
    assert r == [r[0]] + r[1..];
  }

  /** The first character always starts a word. */
  lemma TitleFirst(s: string)
    requires s != []
    ensures Title(s)[0] == ToTitleChar(s[0])
  {
    TitleAt(s);
    assert IsSeparator(' ');
    TitleAfterSeparator(' ', s[0]);
  }

  lemma TitleInsideWord(w: string)
    requires w != [] && forall i :: 0 <= i < |w| ==> IsAsciiAlnum(w[i])
    ensures Title(w)[1..] == w[1..]
  {
    var r := Title(w);
    TitleAt(w);
    forall i | 1 <= i < |w| ensures r[i] == w[i] {
      assert Before(w, i) == w[i - 1];
      AlnumIsNotSeparator(w[i - 1]);
      TitleKeepsInsideWord(w[i - 1], w[i]);
    }
    assert forall k :: 0 <= k < |w| - 1 ==> r[1..][k] == r[k + 1];
  }

  /** Inside a word nothing changes. */
  lemma TitleKeepsInsideWord(prev: char, c: char)
    requires !IsSeparator(prev)
    ensures TitleChar(prev, c) == c
  {
  }

  /** The number of white-space characters `s` starts with. */
  function LeadingSpace(s: string): (n: nat)
    ensures n <= |s|
    ensures forall k :: 0 <= k < n ==> IsSpace(s[k])
    ensures n < |s| ==> !IsSpace(s[n])
  {
    if s != [] && IsSpace(s[0]) then 1 + LeadingSpace(s[1..]) else 0
  }

  /** The number of white-space characters `s` ends with. */
  function TrailingSpace(s: string): (n: nat)
    ensures n <= |s|
    ensures forall k :: |s| - n <= k < |s| ==> IsSpace(s[k])
    ensures n < |s| ==> !IsSpace(s[|s| - n - 1])
  {
    if s != [] && IsSpace(s[|s| - 1]) then 1 + TrailingSpace(s[..|s| - 1]) else 0
  }

  /**
    strings.TrimSpace: `s` without its leading and trailing white space; the
    result is the slice of `s` between two runs of white space, and it neither
    starts nor ends with a space.
  */
  function TrimSpace(s: string): (r: string)
    ensures var i := LeadingSpace(s);
      && |r| <= |s| - i
      && r == s[i..i + |r|]
      && (forall k :: 0 <= k < i || i + |r| <= k < |s| ==> IsSpace(s[k]))
    ensures r != [] ==> !IsSpace(r[0]) && !IsSpace(r[|r| - 1])
  {
    var t := s[LeadingSpace(s)..];
    var r := t[..|t| - TrailingSpace(t)];
    assert r != [] ==> r[0] == t[0];
    r
  }

  predicate AllSpace(s: string) { forall k :: 0 <= k < |s| ==> IsSpace(s[k]) }

  /** Leading white space is counted exactly, whatever follows it. */
  lemma LeadingSpaceOf(a: string, t: string)
    requires AllSpace(a) && (t != [] ==> !IsSpace(t[0]))
    ensures LeadingSpace(a + t) == |a|
  {
    var s := a + t;
    assert forall k :: 0 <= k < |a| ==> s[k] == a[k];
    assert t != [] ==> s[|a|] == t[0];
  }

  /** Trailing white space is counted exactly, whatever precedes it. */
  lemma TrailingSpaceOf(t: string, b: string)
    requires AllSpace(b) && (t != [] ==> !IsSpace(t[|t| - 1]))
    ensures TrailingSpace(t + b) == |b|
  {
    var s := t + b;
    assert forall k :: 0 <= k < |b| ==> s[|t| + k] == b[k];
    assert t != [] ==> s[|t| - 1] == t[|t| - 1];
  }

  /**
    TrimSpace recovers any word that neither starts nor ends with white space
    from between two runs of white space.
  */
  lemma TrimSpaceOf(a: string, w: string, b: string)
    requires AllSpace(a) && AllSpace(b)
    requires w != [] && !IsSpace(w[0]) && !IsSpace(w[|w| - 1])
    ensures TrimSpace(a + w + b) == w
  {
    var s := a + w + b;
    assert s == a + (w + b);
    LeadingSpaceOf(a, w + b);
    assert s[|a|..] == w + b;
    TrailingSpaceOf(w, b);
    assert (w + b)[..|w|] == w;
  }
}
