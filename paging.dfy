/**
 * The scrolling arithmetic the request menu's five tabs share: each tab
 * keeps a scroll offset and the line count of its last render, and shows
 * at most the terminal height less 16 rows.
 */
module Paging {
  import opened Strings

  /** The rows a tab may use: the terminal height less the 16 rows of logo, tab bar and navigation. */
  function MaxLines(height: int): int {
    height - 16
  }

  /** ScrollUp: one line up, never above the top line. */
  function ScrollUp(offset: int): (r: int)
    ensures 0 <= offset ==> 0 <= r <= offset
    ensures r < offset <==> offset > 0
    ensures offset - r <= 1
  {
    if offset > 0 then offset - 1 else offset
  }

  /** ScrollPgUp: five lines up, stopping at the top line. */
  function ScrollPgUp(offset: int): (r: int)
    ensures 0 <= r
    ensures r <= offset || r == 0
    ensures r == 0 || r == offset - 5
    ensures offset >= 5 ==> r == offset - 5
  {
    if offset - 5 < 0 then 0 else offset - 5
  }

  /**
   * ScrollDown on the paged tabs: one line down while the page does not
   * yet reach the last line; so a page that ends inside the text still
   * ends inside it afterwards.
   */
  function ScrollDown(offset: int, linesAmount: int, maxLines: int): (r: int)
    ensures r == offset || r == offset + 1
    ensures r == offset + 1 <==> linesAmount != 0 && linesAmount > maxLines && offset + maxLines < linesAmount
    ensures offset + maxLines <= linesAmount ==> r + maxLines <= linesAmount
  {
    if linesAmount == 0 || linesAmount <= maxLines then offset
    else if offset + maxLines >= linesAmount then offset
    else offset + 1
  }

  /**
   * ScrollDown on the response tab: one line down, except that an offset
   * already past the end is pulled back to the last line.
   */
  function ResultScrollDown(offset: int, linesAmount: int): (r: int)
    ensures linesAmount == 0 ==> r == offset
    ensures linesAmount != 0 && offset < linesAmount ==> r == offset + 1
    ensures linesAmount > 0 ==> r <= linesAmount
    ensures linesAmount > 0 && offset >= linesAmount ==> r == linesAmount - 1
    ensures 0 <= offset && 0 <= linesAmount ==> 0 <= r
  {
    if linesAmount == 0 then offset
    else if offset >= linesAmount then linesAmount - 1
    else offset + 1
  }

  /** ScrollPgDown, the same on every tab: five lines down when the text is longer than a page, with no upper clamp. */
  function ScrollPgDown(offset: int, linesAmount: int, maxLines: int): (r: int)
    ensures r == offset || r == offset + 5
    ensures r == offset + 5 <==> linesAmount != 0 && linesAmount > maxLines
  {
    if linesAmount == 0 || linesAmount <= maxLines then offset else offset + 5
  }

  /**
   * The window a paged tab shows: from min(offset, total) for at most
   * maxLines lines. It is a full page unless it reaches the last line.
   */
  function Window(offset: nat, total: nat, maxLines: nat): (r: (nat, nat))
    ensures r.0 <= r.1 <= total
    ensures r.0 == offset || r.0 == total
    ensures offset <= total ==> r.0 == offset
    ensures r.1 - r.0 <= maxLines
    ensures r.1 - r.0 == maxLines || r.1 == total
  {
    var start := if offset < total then offset else total;
    (start, if start + maxLines < total then start + maxLines else total)
  }

  /**
   * The response tab's clamp: an offset beyond total-maxLines is pulled
   * back to max(0, total-maxLines), so the last page is full when the
   * text fills one.
   */
  function ResultOffset(offset: nat, total: nat, maxLines: nat): (r: nat)
    ensures r <= offset
    ensures r + maxLines <= total || r == 0
    ensures offset + maxLines <= total ==> r == offset
    ensures r <= total
  {
    if offset > total - maxLines then (if total - maxLines > 0 then total - maxLines else 0) else offset
  }

  /** The window of the response tab after the clamp: a full page whenever the text is at least a page long. */
  lemma ResultWindowFull(offset: nat, total: nat, maxLines: nat)
    requires maxLines <= total
    ensures var o := ResultOffset(offset, total, maxLines);
      o + maxLines <= total && Window(o, total, maxLines) == (o, o + maxLines)
  {
  }

  /** The scroll hint shown under a tab whose text is longer than a page. */
  function Footer(start: nat, end: nat, total: nat, maxLines: int): (r: string)
    ensures total <= maxLines <==> r == ""
  {
    if total > maxLines then
      "\n[" + NatToString(start + 1) + "-" + NatToString(end) + "/" + NatToString(total)
      + " lines] Use \U{2191}/\U{2193} or PgUp/PgDown to scroll."
    else ""
  }

  /** A paged tab's text: the visible lines joined by newlines, then the footer. */
  function PagedView(offset: nat, lines: seq<string>, maxLines: nat): (r: string)
    ensures |lines| <= maxLines && offset == 0 ==> r == Join(lines, "\n")
  {
    var (start, end) := Window(offset, |lines|, maxLines);
    assert |lines| <= maxLines && offset == 0 ==> lines[start..end] == lines;
    Join(lines[start..end], "\n") + Footer(start, end, |lines|, maxLines)
  }

  /**
   * Worked examples, the windows behind the footers the paging tests
   * expect: "[1-2/3 lines]" and "[3-3/3 lines]" (three lines, height 18) and
   * "[1-0/9 lines]" (nine lines, height 16).
   */
  lemma WindowExamples()
    ensures Window(0, 3, MaxLines(18)) == (0, 2)
    ensures Window(2, 3, MaxLines(18)) == (2, 3)
    ensures Window(0, 9, MaxLines(16)) == (0, 0)
  {
  }

  /** ScrollDown and ScrollUp undo each other while the page stays inside the text. */
  lemma ScrollDownThenUp(offset: int, linesAmount: int, maxLines: int)
    requires 0 <= offset && 0 <= maxLines && offset + maxLines < linesAmount
    ensures ScrollUp(ScrollDown(offset, linesAmount, maxLines)) == offset
  {
  }

  /** Repeated ScrollDown from the top reaches exactly the last full page and then stays there. */
  lemma {:induction false} ScrollDownStops(offset: nat, linesAmount: int, maxLines: nat, n: nat)
    requires maxLines < linesAmount && offset + maxLines <= linesAmount
    ensures ScrollDownN(offset, linesAmount, maxLines, n) == Min(offset + n, linesAmount - maxLines)
    decreases n
  {
    if n > 0 {
      var next := ScrollDown(offset, linesAmount, maxLines);
      assert ScrollDownN(offset, linesAmount, maxLines, n) == ScrollDownN(next, linesAmount, maxLines, n - 1);
      ScrollDownStops(next, linesAmount, maxLines, n - 1);
      if offset + maxLines < linesAmount {
        assert next == offset + 1;
      } else {
        assert next == offset == linesAmount - maxLines;
      }
    }
  }

  function Min(a: int, b: int): int {
    if a < b then a else b
  }

  /** n presses of Down. */
  function ScrollDownN(offset: int, linesAmount: int, maxLines: int, n: nat): int
    decreases n
  {
    if n == 0 then offset else ScrollDownN(ScrollDown(offset, linesAmount, maxLines), linesAmount, maxLines, n - 1)
  }
}
