/**
 * The subset of Go's `strings` and `strconv` packages the program relies on,
 * on `seq<char>` strings (one char stands for one Go byte of ASCII text).
 */
module Strings {
  import opened Wrappers

  /** unicode.IsSpace, which strings.TrimSpace uses. */
  predicate IsSpace(c: char) {
    c == ' ' || c == '\t' || c == '\n' || c == '\r' || c == '\U{000B}' || c == '\U{000C}'
    || c == '\U{0085}' || c == '\U{00A0}' || c == '\U{1680}'
    || ('\U{2000}' <= c <= '\U{200A}')
    || c == '\U{2028}' || c == '\U{2029}' || c == '\U{202F}' || c == '\U{205F}' || c == '\U{3000}'
  }

  predicate AllSpace(s: string) {
    forall i :: 0 <= i < |s| ==> IsSpace(s[i])
  }

  /** `k` ends the leading run of white space of `s`. */
  predicate IsLeadEnd(s: string, k: int) {
    0 <= k <= |s| && (forall j :: 0 <= j < k ==> IsSpace(s[j])) && (k < |s| ==> !IsSpace(s[k]))
  }

  /** `k` starts the trailing run of white space of `s`. */
  predicate IsTrailStart(s: string, k: int) {
    0 <= k <= |s| && (forall j :: k <= j < |s| ==> IsSpace(s[j])) && (k > 0 ==> !IsSpace(s[k - 1]))
  }

  function LeadEndFrom(s: string, i: nat): (k: nat)
    requires i <= |s|
    requires forall j :: 0 <= j < i ==> IsSpace(s[j])
    ensures IsLeadEnd(s, k)
    decreases |s| - i
  {
    if i < |s| && IsSpace(s[i]) then LeadEndFrom(s, i + 1) else i
  }

  function TrailStartFrom(s: string, i: nat): (k: nat)
    requires i <= |s|
    requires forall j :: i <= j < |s| ==> IsSpace(s[j])
    ensures IsTrailStart(s, k)
  {
    if i > 0 && IsSpace(s[i - 1]) then TrailStartFrom(s, i - 1) else i
  }

  lemma LeadEndUnique(s: string, k1: int, k2: int)
    requires IsLeadEnd(s, k1) && IsLeadEnd(s, k2)
    ensures k1 == k2
  {
  }

  lemma TrailStartUnique(s: string, k1: int, k2: int)
    requires IsTrailStart(s, k1) && IsTrailStart(s, k2)
    ensures k1 == k2
  {
  }

  /** Drops leading white space. */
  function TrimLeftSpace(s: string): (r: string)
    ensures |r| <= |s| && r == s[|s| - |r|..]
    ensures IsLeadEnd(s, |s| - |r|)
  {
    s[LeadEndFrom(s, 0)..]
  }

  /** Drops trailing white space. */
  function TrimRightSpace(s: string): (r: string)
    ensures |r| <= |s| && r == s[..|r|]
    ensures IsTrailStart(s, |r|)
  {
    s[..TrailStartFrom(s, |s|)]
  }

  /** strings.TrimSpace */
  function TrimSpace(s: string): (r: string)
    ensures |r| <= |s|
    ensures r != [] ==> !IsSpace(r[0]) && !IsSpace(r[|r| - 1])
  {
    TrimRightSpace(TrimLeftSpace(s))
  }

  /** Leading white space never changes TrimLeftSpace's result. */
  lemma TrimLeftPadding(a: string, s: string)
    requires AllSpace(a)
    ensures TrimLeftSpace(a + s) == TrimLeftSpace(s)
  {
    var x := a + s;
    var l := |s| - |TrimLeftSpace(s)|;
    assert IsLeadEnd(x, |a| + l) by {
      forall j | 0 <= j < |a| + l ensures IsSpace(x[j]) {
        if j < |a| { assert x[j] == a[j]; } else { assert x[j] == s[j - |a|]; }
      }
      if l < |s| { assert x[|a| + l] == s[l]; }
    }
    LeadEndUnique(x, |a| + l, |x| - |TrimLeftSpace(x)|);
    assert x[|a| + l..] == s[l..];
  }

  /** Trailing white space never changes TrimRightSpace's result. */
  lemma TrimRightPadding(s: string, b: string)
    requires AllSpace(b)
    ensures TrimRightSpace(s + b) == TrimRightSpace(s)
  {
    var x := s + b;
    var t := |TrimRightSpace(s)|;
    assert IsTrailStart(x, t) by {
      forall j | t <= j < |x| ensures IsSpace(x[j]) {
        if j < |s| { assert x[j] == s[j]; } else { assert x[j] == b[j - |s|]; }
      }
      if t > 0 { assert x[t - 1] == s[t - 1]; }
    }
    TrailStartUnique(x, t, |TrimRightSpace(x)|);
    assert x[..t] == s[..t];
  }

  /** Text after a non-blank string survives TrimLeftSpace unchanged. */
  lemma TrimLeftAppend(s: string, b: string)
    requires TrimLeftSpace(s) != ""
    ensures TrimLeftSpace(s + b) == TrimLeftSpace(s) + b
  {
    var x := s + b;
    var l := |s| - |TrimLeftSpace(s)|;
    assert IsLeadEnd(x, l) by {
      forall j | 0 <= j < l ensures IsSpace(x[j]) {
        assert x[j] == s[j];
      }
      assert x[l] == s[l];
    }
    LeadEndUnique(x, l, |x| - |TrimLeftSpace(x)|);
    assert x[l..] == s[l..] + b;
  }

  /** Surrounding white space never changes TrimSpace's result. */
  lemma TrimSpaceIgnoresPadding(a: string, s: string, b: string)
    requires AllSpace(a) && AllSpace(b)
    ensures TrimSpace(a + s + b) == TrimSpace(s)
  {
    var x := a + s + b;
    assert x == a + (s + b);
    TrimLeftPadding(a, s + b);
    assert TrimLeftSpace(x) == TrimLeftSpace(s + b);
    var y := TrimLeftSpace(s);
    if y != "" {
      TrimLeftAppend(s, b);
      TrimRightPadding(y, b);
      assert TrimSpace(x) == TrimRightSpace(y + b);
    } else {
      assert AllSpace(s) by {
        assert IsLeadEnd(s, |s|);
      }
      TrimLeftPadding(s, b);
      assert b + "" == b;
      TrimLeftPadding(b, "");
      assert TrimLeftSpace(s + b) == "";
      assert TrimSpace(x) == TrimRightSpace("");
    }
  }

  /** Removes every trailing character that belongs to `cutset` (strings.TrimRight). */
  function TrimRight(s: string, cutset: set<char>): (r: string)
    ensures |r| <= |s| && r == s[..|r|]
    ensures forall i :: |r| <= i < |s| ==> s[i] in cutset
    ensures r != [] ==> r[|r| - 1] !in cutset
  {
    if s != [] && s[|s| - 1] in cutset then TrimRight(s[..|s| - 1], cutset) else s
  }

  /** ASCII case mapping, as unicode.ToLower does for ASCII letters. */
  function ToLowerChar(c: char): char {
    if 'A' <= c <= 'Z' then (c as int + 32) as char else c
  }

  /** strings.ToLower on ASCII text. */
  function ToLower(s: string): (r: string)
    ensures |r| == |s|
    ensures forall i :: 0 <= i < |s| ==> r[i] == ToLowerChar(s[i])
  {
    seq(|s|, i requires 0 <= i < |s| => ToLowerChar(s[i]))
  }

  predicate HasPrefix(s: string, p: string) {
    |p| <= |s| && s[..|p|] == p
  }

  predicate HasSuffix(s: string, p: string) {
    |p| <= |s| && s[|s| - |p|..] == p
  }

  /** A concatenation starts with its first piece and ends with its last. */
  lemma ConcatEnds(a: string, b: string, c: string)
    ensures HasPrefix(a + b + c, a) && HasSuffix(a + b + c, c)
  {
    assert (a + b + c)[..|a|] == a;
    assert (a + b + c)[|a + b + c| - |c|..] == c;
  }

  /** strings.Contains */
  predicate Contains(s: string, sub: string) {
    exists i :: 0 <= i <= |s| - |sub| && OccursAt(s, sub, i)
  }

  predicate OccursAt(s: string, sub: string, i: int)
    requires 0 <= i <= |s| - |sub|
  {
    s[i..i + |sub|] == sub
  }

  /** strings.ContainsAny */
  predicate ContainsAny(s: string, chars: set<char>) {
    exists i :: 0 <= i < |s| && s[i] in chars
  }

  /** What one input character becomes under ReplaceAll. */
  function Piece(x: char, c: char, rep: string): string {
    if x == c then rep else [x]
  }

  /** Replaces every occurrence of the character `c` by `rep` (strings.ReplaceAll with a one-character pattern). */
  function ReplaceAll(s: string, c: char, rep: string): (r: string)
    ensures c !in rep ==> c !in r
    ensures c !in s ==> r == s
  {
    if s == [] then [] else Piece(s[0], c, rep) + ReplaceAll(s[1..], c, rep)
  }

  /** Replacing distributes over concatenation. */
  lemma {:induction false} ReplaceAllConcat(a: string, b: string, c: char, rep: string)
    ensures ReplaceAll(a + b, c, rep) == ReplaceAll(a, c, rep) + ReplaceAll(b, c, rep)
  {
    if a == [] {
      assert a + b == b;
    } else {
      var ab := a + b;
      assert ab[0] == a[0];
      assert ab[1..] == a[1..] + b;
      ReplaceAllConcat(a[1..], b, c, rep);
      calc {
        ReplaceAll(ab, c, rep);
        Piece(a[0], c, rep) + ReplaceAll(a[1..] + b, c, rep);
        Piece(a[0], c, rep) + (ReplaceAll(a[1..], c, rep) + ReplaceAll(b, c, rep));
        (Piece(a[0], c, rep) + ReplaceAll(a[1..], c, rep)) + ReplaceAll(b, c, rep);
      }
    }
  }

  /** A character that is neither in the input nor in the replacement is not in the output. */
  lemma {:induction false} ReplaceAllAvoids(s: string, c: char, rep: string, x: char)
    requires x !in s && x !in rep
    ensures x !in ReplaceAll(s, c, rep)
  {
    if s != [] {
      assert x !in s[1..];
      ReplaceAllAvoids(s[1..], c, rep, x);
    }
  }

  /** strings.Join */
  function Join(parts: seq<string>, sep: string): (r: string)
    ensures parts == [] ==> r == []
    ensures |parts| == 1 ==> r == parts[0]
  {
    if parts == [] then [] else if |parts| == 1 then parts[0] else parts[0] + sep + Join(parts[1..], sep)
  }

  /** Joining one more part appends the separator and the part. */
  lemma {:induction false} JoinSnoc(parts: seq<string>, x: string, sep: string)
    ensures Join(parts + [x], sep) == if parts == [] then x else Join(parts, sep) + sep + x
    decreases |parts|
  {
    if |parts| == 1 {
      assert parts + [x] == [parts[0], x];
      assert Join([parts[0], x], sep) == parts[0] + sep + Join([x], sep);
    } else if |parts| > 1 {
      assert (parts + [x])[1..] == parts[1..] + [x];
      JoinSnoc(parts[1..], x, sep);
    } else {
      assert parts + [x] == [x];
    }
  }

  /** One pass of a loop that writes each part followed by the separator, except after the last. */
  lemma JoinLoopStep(parts: seq<string>, i: nat, sep: string, content: string)
    requires i < |parts|
    requires content == Join(parts[..i], sep) + (if 0 < i then sep else "")
    ensures content + parts[i] + (if i + 1 < |parts| then sep else "")
      == Join(parts[..i + 1], sep) + (if i + 1 < |parts| then sep else "")
  {
    assert parts[..i + 1] == parts[..i] + [parts[i]];
    JoinSnoc(parts[..i], parts[i], sep);
  }

  /** Index of the first `c` in `s`, or |s| when there is none. */
  function IndexOf(s: string, c: char): (i: nat)
    ensures i <= |s|
    ensures i < |s| ==> s[i] == c
    ensures c !in s[..i]
  {
    if s == [] then 0 else if s[0] == c then 0 else 1 + IndexOf(s[1..], c)
  }

  /** strings.Split with a one-character separator. */
  function Split(s: string, c: char): (r: seq<string>)
    ensures |r| >= 1
    ensures forall k :: 0 <= k < |r| ==> c !in r[k]
    decreases |s|
  {
    var i := IndexOf(s, c);
    if i == |s| then [s] else [s[..i]] + Split(s[i + 1..], c)
  }

  /** Joining the pieces of a split with the separator gives back the input. */
  lemma {:induction false} JoinSplit(s: string, c: char)
    ensures Join(Split(s, c), [c]) == s
    decreases |s|
  {
    var i := IndexOf(s, c);
    if i < |s| {
      var rest := Split(s[i + 1..], c);
      JoinSplit(s[i + 1..], c);
      var parts := [s[..i]] + rest;
      assert Split(s, c) == parts;
      assert parts[1..] == rest && |parts| != 1;
      assert Join(parts, [c]) == s[..i] + [c] + Join(rest, [c]);
      assert s == s[..i] + [c] + s[i + 1..];
    }
  }

  /** What precedes the first `c` (strings.Split(s, c)[0]). */
  function BeforeFirst(s: string, c: char): (r: string)
    ensures r == Split(s, c)[0]
    ensures c !in r && HasPrefix(s, r)
    ensures c !in s ==> r == s
  {
    s[..IndexOf(s, c)]
  }

  function Repeat(c: char, n: nat): (r: string)
    ensures |r| == n
    ensures forall i :: 0 <= i < n ==> r[i] == c
  {
    if n == 0 then [] else [c] + Repeat(c, n - 1)
  }

  predicate IsDigit(c: char) {
    '0' <= c <= '9'
  }

  predicate AllDigits(s: string) {
    forall i :: 0 <= i < |s| ==> IsDigit(s[i])
  }

  function DigitChar(d: nat): char
    requires d < 10
  {
    ('0' as int + d) as char
  }

  function DigitValue(c: char): (d: nat)
    requires IsDigit(c)
    ensures d < 10 && DigitChar(d) == c
  {
    c as int - '0' as int
  }

  /** Decimal rendering of a natural number (fmt's %d / %v of a non-negative int). */
  function NatToString(n: nat): (r: string)
    ensures r != [] && AllDigits(r)
    ensures |r| > 1 ==> r[0] != '0'
  {
    if n < 10 then [DigitChar(n)] else NatToString(n / 10) + [DigitChar(n % 10)]
  }

  /** fmt's %d / %v of an int. */
  function IntToString(i: int): (r: string)
    ensures r != []
    ensures i < 0 <==> r[0] == '-'
    ensures r[0] != '+'
  {
    if i < 0 then "-" + NatToString(-i) else NatToString(i)
  }

  /** Value of a string of decimal digits. */
  function DigitsValue(s: string): (n: nat)
    requires AllDigits(s)
  {
    if s == [] then 0 else DigitsValue(s[..|s| - 1]) * 10 + DigitValue(s[|s| - 1])
  }

  const MinInt64: int := -0x8000_0000_0000_0000
  const MaxInt64: int := 0x7FFF_FFFF_FFFF_FFFF

  /**
   * strconv.Atoi on a 64-bit platform: an optional sign, then at least one
   * decimal digit, and a value that fits an int64; anything else is an error.
   */
  function Atoi(s: string): (r: Option<int>)
    ensures r.Some? ==> MinInt64 <= r.value <= MaxInt64
    ensures s == [] ==> r.None?
    ensures r.Some? && AllDigits(s) ==> r.value == DigitsValue(s)
  {
    var neg := s != [] && s[0] == '-';
    var digits := if s != [] && (s[0] == '-' || s[0] == '+') then s[1..] else s;
    if digits == [] || !AllDigits(digits) then None
    else
      var v: int := if neg then -(DigitsValue(digits) as int) else DigitsValue(digits);
      if MinInt64 <= v <= MaxInt64 then Some(v) else None
  }

  lemma {:induction false} DigitsValueOfNatToString(n: nat)
    ensures DigitsValue(NatToString(n)) == n
  {
    if n >= 10 {
      var r := NatToString(n);
      assert r[..|r| - 1] == NatToString(n / 10);
      DigitsValueOfNatToString(n / 10);
    }
  }

  /** strconv.Atoi reads back what %v printed, for every int64. */
  lemma AtoiIntToString(i: int)
    requires MinInt64 <= i <= MaxInt64
    ensures Atoi(IntToString(i)) == Some(i)
  {
    if i < 0 {
      var d := NatToString(-i);
      assert IntToString(i) == "-" + d;
      assert ("-" + d)[1..] == d;
      DigitsValueOfNatToString(-i);
      assert -(DigitsValue(d) as int) == i;
    } else {
      var d := NatToString(i);
      assert IntToString(i) == d;
      assert IsDigit(d[0]);
      DigitsValueOfNatToString(i);
    }
  }
}
