/**
 * JSON syntax highlighting: the indented text is cut into tagged segments
 * (keys, strings, numbers, booleans, null and single other characters).
 * The colours the segments are rendered in are left to the caller;
 * json.Indent is the parameter `indent`.
 */
module JsonFormatter {
  import opened Wrappers
  import opened Strings

  datatype Tag = Key | Str | Number | Bool | Null | Other

  datatype Segment = Segment(tag: Tag, text: string)

  /** The input unchanged (json.Indent rejected it), or the highlighted segments. */
  datatype Formatted = Unchanged(input: string) | Highlighted(segments: seq<Segment>)

  /** The index of the quote closing a string whose body starts at `j`; |s| when there is none. */
  function ClosingQuote(s: string, j: nat): (r: nat)
    requires j <= |s|
    ensures j <= r <= |s|
    ensures r < |s| ==> s[r] == '"'
    decreases |s| - j
  {
    if j >= |s| || s[j] == '"' then j
    else if s[j] == '\\' && j + 1 < |s| then ClosingQuote(s, j + 2)
    else ClosingQuote(s, j + 1)
  }

  /** An escaped character is skipped: a backslash-quote does not close the string. */
  lemma EscapeSkipsNext(s: string, j: nat)
    requires j + 1 < |s| && s[j] == '\\'
    ensures ClosingQuote(s, j) == ClosingQuote(s, j + 2)
    ensures ClosingQuote(s, j) != j + 1
  {
  }

  predicate IsLayout(c: char) {
    c == ' ' || c == '\n' || c == '\t'
  }

  /** The first index from `k` that is not a space, newline or tab. */
  function SkipLayout(s: string, k: nat): (r: nat)
    requires k <= |s|
    ensures k <= r <= |s|
    ensures forall t :: k <= t < r ==> IsLayout(s[t])
    ensures r < |s| ==> !IsLayout(s[r])
    decreases |s| - k
  {
    if k < |s| && IsLayout(s[k]) then SkipLayout(s, k + 1) else k
  }

  predicate IsNumberChar(c: char) {
    ('0' <= c <= '9') || c == '.' || c == 'e' || c == 'E' || c == '-'
  }

  /** The end of the run of number characters starting at `j`. */
  function NumberEnd(s: string, j: nat): (r: nat)
    requires j <= |s|
    ensures j <= r <= |s|
    ensures forall t :: j <= t < r ==> IsNumberChar(s[t])
    ensures r < |s| ==> !IsNumberChar(s[r])
    decreases |s| - j
  {
    if j < |s| && IsNumberChar(s[j]) then NumberEnd(s, j + 1) else j
  }

  predicate StartsNumber(c: char) {
    ('0' <= c <= '9') || c == '-'
  }

  /** A quoted text closing at `j` is a key when the next character after layout is ':'. */
  function QuotedTag(s: string, j: nat): (r: Tag)
    requires j < |s|
    ensures r == Key || r == Str
  {
    var k := SkipLayout(s, j + 1);
    if k < |s| && s[k] == ':' then Key else Str
  }

  /** The segment of a run of number characters starting at `i`. */
  function NumberStep(s: string, i: nat): (r: (Segment, nat))
    requires i < |s| && StartsNumber(s[i])
    ensures i < r.1 <= |s|
    ensures r.0.text == s[i..r.1]
    ensures WellFormed(r.0)
  {
    var j := NumberEnd(s, i);
    assert forall t :: 0 <= t < j - i ==> s[i..j][t] == s[i + t];
    (Segment(Number, s[i..j]), j)
  }

  /** The segment of the literal word `w` that s[i..] starts with. */
  function WordStep(s: string, i: nat, tag: Tag, w: string): (r: (Segment, nat))
    requires i < |s| && |w| > 0 && HasPrefix(s[i..], w)
    ensures r == (Segment(tag, w), i + |w|)
    ensures i < r.1 <= |s| && r.0.text == s[i..r.1]
  {
    assert s[i..i + |w|] == s[i..][..|w|];
    (Segment(tag, w), i + |w|)
  }

  /** The segment the loop emits at `i` and the index it continues from. */
  function Step(s: string, i: nat): (r: (Segment, nat))
    requires i < |s|
    ensures i < r.1 <= |s|
    ensures r.0.text == s[i..r.1]
    ensures WellFormed(r.0)
  {
    if s[i] == '"' && ClosingQuote(s, i + 1) < |s| then
      var j := ClosingQuote(s, i + 1);
      (Segment(QuotedTag(s, j), s[i..j + 1]), j + 1)
    else if StartsNumber(s[i]) then NumberStep(s, i)
    else if HasPrefix(s[i..], "true") then WordStep(s, i, Bool, "true")
    else if HasPrefix(s[i..], "false") then WordStep(s, i, Bool, "false")
    else if HasPrefix(s[i..], "null") then WordStep(s, i, Null, "null")
    else (Segment(Other, [s[i]]), i + 1)
  }

  /** The tagged segments of s[i..], in the order the scanning loop emits them. */
  function ScanFrom(s: string, i: nat): seq<Segment>
    requires i <= |s|
    decreases |s| - i
  {
    if i >= |s| then [] else [Step(s, i).0] + ScanFrom(s, Step(s, i).1)
  }

  function Texts(segs: seq<Segment>): string {
    if segs == [] then "" else segs[0].text + Texts(segs[1..])
  }

  lemma {:induction false} TextsAppend(a: seq<Segment>, b: seq<Segment>)
    ensures Texts(a + b) == Texts(a) + Texts(b)
  {
    if a == [] {
      assert a + b == b;
    } else {
      assert (a + b)[1..] == a[1..] + b;
      TextsAppend(a[1..], b);
    }
  }

  /** The segments partition the text: concatenated, they are s[i..], so every character is emitted once. */
  lemma {:induction false} ScanPartitions(s: string, i: nat)
    requires i <= |s|
    ensures Texts(ScanFrom(s, i)) == s[i..]
    decreases |s| - i
  {
    if i < |s| {
      var step := Step(s, i);
      var g, next := step.0, step.1;
      assert ScanFrom(s, i) == [g] + ScanFrom(s, next);
      ScanPartitions(s, next);
      TextsAppend([g], ScanFrom(s, next));
      assert Texts([g]) == g.text by {
        assert [g][1..] == [];
      }
      assert g.text == s[i..next];
      SliceSplit(s, i, next);
    }
  }

  lemma SliceSplit(s: string, i: nat, m: nat)
    requires i <= m <= |s|
    ensures s[i..] == s[i..m] + s[m..]
  {
  }

  /** What each tag guarantees about its text. */
  predicate WellFormed(g: Segment) {
    match g.tag
    case Key => |g.text| >= 2 && g.text[0] == '"' && g.text[|g.text| - 1] == '"'
    case Str => |g.text| >= 2 && g.text[0] == '"' && g.text[|g.text| - 1] == '"'
    case Number => |g.text| >= 1 && StartsNumber(g.text[0]) && forall t :: 0 <= t < |g.text| ==> IsNumberChar(g.text[t])
    case Bool => g.text == "true" || g.text == "false"
    case Null => g.text == "null"
    case Other => |g.text| == 1
  }

  /** Every emitted segment is well formed for its tag. */
  lemma {:induction false} ScanWellFormed(s: string, i: nat)
    requires i <= |s|
    ensures forall g :: g in ScanFrom(s, i) ==> WellFormed(g)
    decreases |s| - i
  {
    if i < |s| {
      ScanWellFormed(s, Step(s, i).1);
    }
  }

  /**
   * A string that closes at `j` is a key exactly when the next character
   * after spaces, newlines and tabs is ':'.
   */
  lemma KeyIffColonFollows(s: string, i: nat)
    requires i < |s| && s[i] == '"' && ClosingQuote(s, i + 1) < |s|
    ensures var j := ClosingQuote(s, i + 1);
      var g := ScanFrom(s, i)[0];
      && g.text == s[i..j + 1]
      && (g.tag == Key <==> exists k :: j < k < |s| && s[k] == ':' && forall t :: j < t < k ==> IsLayout(s[t]))
      && (g.tag == Key || g.tag == Str)
  {
    var j := ClosingQuote(s, i + 1);
    assert ScanFrom(s, i)[0] == Step(s, i).0;
    assert Step(s, i).0 == Segment(QuotedTag(s, j), s[i..j + 1]);
    QuotedTagIff(s, j);
  }

  /** The tag of a quoted text, stated without SkipLayout. */
  lemma QuotedTagIff(s: string, j: nat)
    requires j < |s|
    ensures QuotedTag(s, j) == Key <==> exists k :: j < k < |s| && s[k] == ':' && forall t :: j < t < k ==> IsLayout(s[t])
  {
    var k := SkipLayout(s, j + 1);
    if k < |s| && s[k] == ':' {
      assert forall t :: j < t < k ==> IsLayout(s[t]);
    }
    forall k' | j < k' < |s| && s[k'] == ':' && forall t :: j < t < k' ==> IsLayout(s[t])
      ensures k == k'
    {
      assert !IsLayout(s[k']);
      assert k <= k' < |s|;
      assert !IsLayout(s[k]);
    }
  }

  /** The inner scan for the closing quote, skipping the byte after each backslash. */
  method FindClosingQuote(s: string, start: nat) returns (j: nat)
    requires start <= |s|
    ensures j == ClosingQuote(s, start)
  {
    j := start;
    while j < |s| && s[j] != '"'
      invariant start <= j <= |s|
      invariant ClosingQuote(s, j) == ClosingQuote(s, start)
      decreases |s| - j
    {
      if s[j] == '\\' && j + 1 < |s| {
        j := j + 1;
      }
      j := j + 1;
    }
  }

  /** The scan over spaces, newlines and tabs after a closing quote. */
  method FindNonLayout(s: string, start: nat) returns (k: nat)
    requires start <= |s|
    ensures k == SkipLayout(s, start)
  {
    k := start;
    while k < |s| && (s[k] == ' ' || s[k] == '\n' || s[k] == '\t')
      invariant start <= k <= |s|
      invariant SkipLayout(s, k) == SkipLayout(s, start)
      decreases |s| - k
    {
      k := k + 1;
    }
  }

  /** The scan over number characters. */
  method FindNumberEnd(s: string, start: nat) returns (j: nat)
    requires start <= |s|
    ensures j == NumberEnd(s, start)
  {
    j := start;
    while j < |s| && (('0' <= s[j] <= '9') || s[j] == '.' || s[j] == 'e' || s[j] == 'E' || s[j] == '-')
      invariant start <= j <= |s|
      invariant NumberEnd(s, j) == NumberEnd(s, start)
      decreases |s| - j
    {
      j := j + 1;
    }
  }

  /** One pass of the scanning loop: the segment emitted at `i` and where scanning resumes. */
  method NextSegment(s: string, i: nat) returns (segment: Segment, next: nat)
    requires i < |s|
    ensures (segment, next) == Step(s, i)
  {
    var c := s[i];
    segment := Segment(Other, [c]);
    next := i + 1;
    var quoted := false;
    if c == '"' {
      // key or string value
      var j := FindClosingQuote(s, i + 1);
      if j < |s| {
        var k := FindNonLayout(s, j + 1);
        if k < |s| && s[k] == ':' {
          segment := Segment(Key, s[i..j + 1]);
        } else {
          segment := Segment(Str, s[i..j + 1]);
        }
        assert segment.tag == QuotedTag(s, j);
        next := j + 1;
        assert Step(s, i) == (Segment(QuotedTag(s, j), s[i..j + 1]), j + 1);
        quoted := true;
      }
    }
    if !quoted {
      if ('0' <= c <= '9') || c == '-' {
        var j := FindNumberEnd(s, i);
        segment := Segment(Number, s[i..j]);
        next := j;
        assert Step(s, i) == NumberStep(s, i);
      } else if HasPrefix(s[i..], "true") {
        segment := Segment(Bool, "true");
        next := i + 4;
        assert Step(s, i) == WordStep(s, i, Bool, "true");
      } else if HasPrefix(s[i..], "false") {
        segment := Segment(Bool, "false");
        next := i + 5;
        assert Step(s, i) == WordStep(s, i, Bool, "false");
      } else if HasPrefix(s[i..], "null") {
        segment := Segment(Null, "null");
        next := i + 4;
        assert Step(s, i) == WordStep(s, i, Null, "null");
      }
    }
  }

  /** FormatJSON */
  method FormatJSON(input: string, indent: string -> Option<string>) returns (r: Formatted)
    ensures indent(input).None? ==> r == Unchanged(input)
    ensures indent(input).Some? ==> r == Highlighted(ScanFrom(TrimSpace(indent(input).value), 0))
  {
    var pretty := indent(input);
    if pretty.None? {
      return Unchanged(input);
    }
    var jsonStr := TrimSpace(pretty.value);
    var result: seq<Segment> := [];
    var i := 0;
    while i < |jsonStr|
      invariant 0 <= i <= |jsonStr|
      invariant result + ScanFrom(jsonStr, i) == ScanFrom(jsonStr, 0)
      decreases |jsonStr| - i
    {
      var segment, next := NextSegment(jsonStr, i);
      assert ScanFrom(jsonStr, i) == [segment] + ScanFrom(jsonStr, next);
      assert (result + [segment]) + ScanFrom(jsonStr, next) == result + ([segment] + ScanFrom(jsonStr, next));
      result := result + [segment];
      i := next;
    }
    r := Highlighted(result);
  }
}
