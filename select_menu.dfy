/**
 * The select menu: a list of choices narrowed by a typed search term,
 * a cursor over the narrowed list, and the index of the chosen entry in
 * the full list (-1 while nothing is chosen). Rendering is reduced to the
 * page window and the confirmation line.
 */
module SelectMenu {
  import opened Wrappers
  import opened Strings
  import Tea

  /** A choice matches when it contains the term, ignoring ASCII case. */
  predicate Matches(choice: string, term: string) {
    Contains(ToLower(choice), ToLower(term))
  }

  /** The choices that match, in their original order. */
  function Filter(choices: seq<string>, term: string): (r: seq<string>)
    ensures |r| <= |choices|
  {
    if choices == [] then []
    else (if Matches(choices[0], term) then [choices[0]] else []) + Filter(choices[1..], term)
  }

  /** Filter keeps exactly the matching choices. */
  lemma {:induction false} FilterMembers(choices: seq<string>, term: string)
    ensures forall x :: x in Filter(choices, term) <==> x in choices && Matches(x, term)
  {
    if choices != [] {
      FilterMembers(choices[1..], term);
      assert choices == [choices[0]] + choices[1..];
    }
  }

  /** FilteredChoices: the whole list for an empty term, the matching choices otherwise. */
  function FilteredChoices(choices: seq<string>, term: string): (r: seq<string>)
    ensures r == Filter(choices, term)
  {
    if term != "" then Filter(choices, term) else (FilterEmptyTerm(choices); choices)
  }

  /** Every choice contains the empty term, so filtering by it keeps everything. */
  lemma {:induction false} FilterEmptyTerm(choices: seq<string>)
    ensures Filter(choices, "") == choices
  {
    if choices != [] {
      assert OccursAt(ToLower(choices[0]), ToLower(""), 0);
      FilterEmptyTerm(choices[1..]);
    }
  }

  lemma FilterStep(choices: seq<string>, i: nat, term: string)
    requires i < |choices|
    ensures Filter(choices[i..], term)
      == (if Matches(choices[i], term) then [choices[i]] else []) + Filter(choices[i + 1..], term)
  {
    assert choices[i..][1..] == choices[i + 1..];
  }

  /** `a` is `b` with some elements left out. */
  predicate IsSubsequence(a: seq<string>, b: seq<string>)
    decreases |b|
  {
    if a == [] then true
    else if b == [] then false
    else (a[0] == b[0] && IsSubsequence(a[1..], b[1..])) || IsSubsequence(a, b[1..])
  }

  lemma {:induction false} SubsequenceOfTail(a: seq<string>, b: seq<string>)
    requires b != [] && IsSubsequence(a, b[1..])
    ensures IsSubsequence(a, b)
  {
  }

  /** Filtering keeps the order of the choices it keeps. */
  lemma {:induction false} FilterIsSubsequence(choices: seq<string>, term: string)
    ensures IsSubsequence(Filter(choices, term), choices)
    decreases |choices|
  {
    if choices != [] {
      FilterIsSubsequence(choices[1..], term);
      var rest := Filter(choices[1..], term);
      if Matches(choices[0], term) {
        assert Filter(choices, term) == [choices[0]] + rest;
        assert ([choices[0]] + rest)[1..] == rest;
      } else {
        assert Filter(choices, term) == rest;
        SubsequenceOfTail(rest, choices);
      }
    }
  }

  /** The first position of `x`. */
  function FirstIndex(choices: seq<string>, x: string): (r: nat)
    requires x in choices
    ensures r < |choices| && choices[r] == x && x !in choices[..r]
  {
    if choices[0] == x then 0
    else
      var k := FirstIndex(choices[1..], x);
      assert choices[..k + 1] == [choices[0]] + choices[1..][..k];
      k + 1
  }

  /** The page size the menu uses: 10 when none (or a non-positive one) is given. */
  function PerPage(requested: int): (r: int)
    ensures r > 0
    ensures requested > 0 ==> r == requested
  {
    if requested <= 0 then 10 else requested
  }

  /** The page size as New leaves it: the default is written to the options after they were copied, so it is lost. */
  function PerPageAsWritten(requested: int): (r: int)
    ensures r <= 0 <==> requested <= 0
  {
    requested
  }

  /** The window of listed choices: it scrolls so the cursor is on the last line of the page once past the first page. */
  function PageWindow(cursor: int, perPage: int, count: int): (r: (int, int))
    ensures cursor < perPage ==> r.0 == 0
    ensures r.1 <= count
  {
    var start := if cursor >= perPage then cursor - perPage + 1 else 0;
    (start, if start + perPage < count then start + perPage else count)
  }

  /** With a positive page size the cursor's choice is always listed, on a page of at most perPage lines. */
  lemma CursorOnPage(cursor: int, perPage: int, count: int)
    requires perPage > 0 && 0 <= cursor < count
    ensures var (start, end) := PageWindow(cursor, perPage, count);
      0 <= start <= cursor < end <= count && end - start <= perPage
  {
  }

  /** With the page size New leaves for an unset option, no choice is ever listed. */
  lemma AsWrittenListsNothing(requested: int, cursor: int, count: int)
    requires requested <= 0 && 0 <= cursor
    ensures var (start, end) := PageWindow(cursor, PerPageAsWritten(requested), count);
      end <= start
  {
  }

  /** With the default applied, the cursor's choice is listed whatever page size was requested. */
  lemma CorrectedShowsCursor(requested: int, cursor: int, count: int)
    requires 0 <= cursor < count
    ensures var (start, end) := PageWindow(cursor, PerPage(requested), count);
      start <= cursor < end
  {
    CursorOnPage(cursor, PerPage(requested), count);
  }

  /** The confirmation line's choice as View picks it: the full-list index used on the filtered list (None: out of range). */
  function ChosenAsWritten(choices: seq<string>, term: string, selected: int): (r: Option<string>)
    ensures r.Some? <==> 0 <= selected < |FilteredChoices(choices, term)|
  {
    var filtered := FilteredChoices(choices, term);
    if 0 <= selected < |filtered| then Some(filtered[selected]) else None
  }

  /** The confirmation line's choice, read from the full list the index belongs to. */
  function Chosen(choices: seq<string>, selected: int): (r: Option<string>)
    ensures 0 <= selected < |choices| ==> r == Some(choices[selected])
  {
    if 0 <= selected < |choices| then Some(choices[selected]) else None
  }

  /**
   * Choosing "b" from ["a", "b"] after typing "b": Enter selects index 1,
   * which View reads from the one-element filtered list.
   */
  lemma ChosenAsWrittenOutOfRange(a: string, b: string)
    requires a == "a" && b == "b"
    ensures Filter([a, b], b) == [b]
    ensures FirstIndex([a, b], Filter([a, b], b)[0]) == 1
    ensures ChosenAsWritten([a, b], b, 1) == None
    ensures Chosen([a, b], 1) == Some(b)
  {
    assert OccursAt(ToLower(b), ToLower(b), 0);
    assert !Matches(a, b) by {
      assert ToLower(a) == a && ToLower(b) == b;
      forall i | 0 <= i <= |a| - |b|
        ensures !OccursAt(a, b, i)
      {
        assert i == 0 && a[0..1] == a;
      }
    }
    assert [a, b][1..] == [b];
  }

  class Menu {
    const choices: seq<string>
    const perPage: int
    var cursor: int
    var selected: int
    var searchTerm: string

    /** The cursor addresses a filtered choice (or is 0), and a selection addresses a choice. */
    predicate Valid()
      reads this
    {
      && 0 <= cursor
      && (cursor == 0 || cursor < |Filter(choices, searchTerm)|)
      && (selected == -1 || 0 <= selected < |choices|)
    }

    /** New: cursor on the first entry, nothing chosen, no search term, the page size defaulted. */
    constructor (options: seq<string>, requestedPerPage: int)
      ensures Valid()
      ensures choices == options && perPage == PerPage(requestedPerPage)
      ensures cursor == 0 && selected == -1 && searchTerm == ""
    {
      choices := options;
      perPage := PerPage(requestedPerPage);
      cursor := 0;
      selected := -1;
      searchTerm := "";
    }

    /** FilteredChoices, with the append loop of the source. */
    method Filtered() returns (filtered: seq<string>)
      ensures filtered == FilteredChoices(choices, searchTerm)
    {
      if searchTerm == "" {
        FilterEmptyTerm(choices);
        return choices;
      }
      var all, term := choices, searchTerm;
      filtered := [];
      var i := 0;
      while i < |all|
        invariant 0 <= i <= |all|
        invariant filtered + Filter(all[i..], term) == Filter(all, term)
      {
        FilterStep(all, i, term);
        var kept := if Matches(all[i], term) then [all[i]] else [];
        assert filtered + Filter(all[i..], term) == (filtered + kept) + Filter(all[i + 1..], term);
        filtered := filtered + kept;
        i := i + 1;
      }
      assert all[i..] == [];
    }

    /** The loop Enter runs: the first position of the highlighted choice in the full list. */
    method IndexOf(x: string) returns (index: int)
      requires x in choices
      ensures index == FirstIndex(choices, x)
    {
      index := 0;
      while choices[index] != x
        invariant 0 <= index < |choices| && x in choices[index..] && x !in choices[..index]
        decreases |choices| - index
      {
        assert choices[..index + 1] == choices[..index] + [choices[index]];
        index := index + 1;
      }
    }

    /**
     * Update. Typing (runes, space, a backspace that removes something)
     * edits the term and puts the cursor on the first entry; Up/Down move
     * within the filtered list; Enter chooses the highlighted entry and
     * quits; Ctrl+C and Esc quit without choosing.
     */
    method Update(msg: Tea.Msg) returns (cmd: Tea.Cmd)
      requires Valid()
      modifies this
      ensures Valid()
      ensures !msg.KeyMsg? ==> cmd == Tea.NoCmd && unchanged(this)
      ensures msg.KeyMsg? ==> match msg.key
        case Runes(s) =>
          searchTerm == old(searchTerm) + s && cursor == 0 && selected == old(selected) && cmd == Tea.NoCmd
        case Space =>
          searchTerm == old(searchTerm) + " " && cursor == 0 && selected == old(selected) && cmd == Tea.NoCmd
        case Backspace =>
          && (old(searchTerm) == "" ==> unchanged(this))
          && (old(searchTerm) != "" ==> searchTerm == old(searchTerm)[..|old(searchTerm)| - 1] && cursor == 0)
          && selected == old(selected) && cmd == Tea.NoCmd
        case CtrlC => unchanged(this) && cmd == Tea.Quit
        case Esc => unchanged(this) && cmd == Tea.Quit
        case Up => cursor == (if old(cursor) > 0 then old(cursor) - 1 else old(cursor))
          && searchTerm == old(searchTerm) && selected == old(selected) && cmd == Tea.NoCmd
        case CtrlP => cursor == (if old(cursor) > 0 then old(cursor) - 1 else old(cursor))
          && searchTerm == old(searchTerm) && selected == old(selected) && cmd == Tea.NoCmd
        case Down => cursor == (if old(cursor) < |Filter(choices, searchTerm)| - 1 then old(cursor) + 1 else old(cursor))
          && searchTerm == old(searchTerm) && selected == old(selected) && cmd == Tea.NoCmd
        case CtrlN => cursor == (if old(cursor) < |Filter(choices, searchTerm)| - 1 then old(cursor) + 1 else old(cursor))
          && searchTerm == old(searchTerm) && selected == old(selected) && cmd == Tea.NoCmd
        case Enter =>
          var filtered := Filter(choices, searchTerm);
          && cursor == old(cursor) && searchTerm == old(searchTerm) && cmd == Tea.Quit
          && (filtered == [] ==> selected == old(selected))
          && (filtered != [] ==> 0 <= selected < |choices| && choices[selected] == filtered[cursor] && filtered[cursor] !in choices[..selected])
        case _ => unchanged(this) && cmd == Tea.NoCmd
    {
      cmd := Tea.NoCmd;
      if !msg.KeyMsg? {
        return;
      }
      var filtered := Filtered();
      match msg.key {
        case Runes(s) =>
          searchTerm := searchTerm + s;
          cursor := 0;
        case Backspace =>
          if |searchTerm| > 0 {
            searchTerm := searchTerm[..|searchTerm| - 1];
            cursor := 0;
          }
        case Space =>
          searchTerm := searchTerm + " ";
          cursor := 0;
        case CtrlC =>
          cmd := Tea.Quit;
        case Esc =>
          cmd := Tea.Quit;
        case Up =>
          if cursor > 0 {
            cursor := cursor - 1;
          }
        case CtrlP =>
          if cursor > 0 {
            cursor := cursor - 1;
          }
        case Down =>
          if cursor < |filtered| - 1 {
            cursor := cursor + 1;
          }
        case CtrlN =>
          if cursor < |filtered| - 1 {
            cursor := cursor + 1;
          }
        case Enter =>
          if |filtered| > 0 {
            FilterMembers(choices, searchTerm);
            selected := IndexOf(filtered[cursor]);
          }
          cmd := Tea.Quit;
        case _ =>
      }
    }
  }

  /** What New does once the program ends: the handler gets the chosen index, or the program exits with status 1. */
  datatype Finish = Selected(index: int) | ExitNoSelection

  function Finished(selected: int): (r: Finish)
    ensures r.Selected? <==> selected != -1
    ensures r.Selected? ==> r.index == selected
  {
    if selected != -1 then Selected(selected) else ExitNoSelection
  }
}
