/**
 * The key/value pair editor: a phase machine that asks for a key, then
 * its value, appends the pair, and ends (handing the pairs to the submit
 * handler once) on an empty key, Ctrl+C or Esc.
 */
module KeyValueMenu {
  import Tea

  datatype KeyValue = KeyValue(key: string, value: string)

  /** The phase before Init ran, then "key", "value" and "done". */
  datatype Phase = Unstarted | KeyPhase | ValuePhase | Done

  /** The pairs without the one at index i, the others in order. */
  function Remove(pairs: seq<KeyValue>, i: int): (r: seq<KeyValue>)
    requires 0 <= i < |pairs|
    ensures |r| == |pairs| - 1
    ensures forall j :: 0 <= j < i ==> r[j] == pairs[j]
    ensures forall j :: i <= j < |r| ==> r[j] == pairs[j + 1]
  {
    pairs[..i] + pairs[i + 1..]
  }

  /** Removing a pair takes exactly that one pair out of the collection. */
  lemma {:induction false} RemoveMultiset(pairs: seq<KeyValue>, i: int)
    requires 0 <= i < |pairs|
    ensures multiset(Remove(pairs, i)) + multiset{pairs[i]} == multiset(pairs)
  {
    assert pairs == pairs[..i] + [pairs[i]] + pairs[i + 1..];
  }

  /** The handler's calls after finishing: one more call with `pairs` if the handler was still set. */
  function Fire(calls: seq<seq<KeyValue>>, armed: bool, pairs: seq<KeyValue>): (r: seq<seq<KeyValue>>)
    ensures armed ==> r == calls + [pairs]
    ensures !armed ==> r == calls
  {
    if armed then calls + [pairs] else calls
  }

  class Menu {
    const title: string
    const max: int
    var pairs: seq<KeyValue>
    var adding: bool
    var selected: int
    var keyInput: string
    var valInput: string
    var phase: Phase
    /** onSubmit is still set. */
    var armed: bool
    /** The pair lists the submit handler has been called with. */
    var calls: seq<seq<KeyValue>>

    /** The selection addresses a pair whenever there is one (and is 0 otherwise), and the handler ran at most once. */
    predicate Valid()
      reads this
    {
      && 0 <= selected
      && (if pairs == [] then selected == 0 else selected < |pairs|)
      && |calls| <= 1
      && (armed ==> calls == [])
    }

    /** NewComponent: title and handler set, everything else at its zero value. */
    constructor (menuTitle: string, limit: int, hasOnSubmit: bool)
      ensures Valid()
      ensures title == menuTitle && max == limit && armed == hasOnSubmit
      ensures pairs == [] && !adding && selected == 0 && keyInput == "" && valInput == ""
      ensures phase == Unstarted && calls == []
    {
      title := menuTitle;
      max := limit;
      pairs := [];
      adding := false;
      selected := 0;
      keyInput := "";
      valInput := "";
      phase := Unstarted;
      armed := hasOnSubmit;
      calls := [];
    }

    /** Init: the key phase with the first pair selected. */
    method Init() returns (cmd: Tea.Cmd)
      requires Valid()
      modifies this
      ensures Valid()
      ensures adding && selected == 0 && phase == KeyPhase && cmd == Tea.NoCmd
      ensures pairs == old(pairs) && keyInput == old(keyInput) && valInput == old(valInput)
      ensures armed == old(armed) && calls == old(calls)
    {
      adding := true;
      selected := 0;
      phase := KeyPhase;
      cmd := Tea.NoCmd;
    }

    /** The finishing step: phase "done", and the handler called with the pairs and cleared. */
    method Finish()
      requires Valid()
      modifies this
      ensures Valid()
      ensures phase == Done && !armed && calls == Fire(old(calls), old(armed), pairs)
      ensures pairs == old(pairs) && selected == old(selected) && adding == old(adding)
      ensures keyInput == old(keyInput) && valInput == old(valInput)
    {
      phase := Done;
      if armed {
        calls := calls + [pairs];
        armed := false;
      }
    }

    method Update(msg: Tea.Msg) returns (cmd: Tea.Cmd)
      requires Valid()
      modifies this
      ensures Valid()
      ensures adding == old(adding)
      ensures !msg.KeyMsg? ==> unchanged(this) && cmd == Tea.NoCmd
      ensures msg.KeyMsg? ==> match msg.key
        case CtrlC =>
          Finished(old(pairs), old(calls), old(armed)) && cmd == Tea.Quit
          && Buffers(old(pairs), old(selected), old(keyInput), old(valInput))
        case Esc =>
          Finished(old(pairs), old(calls), old(armed)) && cmd == Tea.Quit
          && Buffers(old(pairs), old(selected), old(keyInput), old(valInput))
        case Enter =>
          if old(phase) == KeyPhase && old(keyInput) == "" then
            Finished(old(pairs), old(calls), old(armed)) && cmd == Tea.Quit
            && Buffers(old(pairs), old(selected), old(keyInput), old(valInput))
          else if old(phase) == KeyPhase then
            phase == ValuePhase && cmd == Tea.NoCmd && armed == old(armed) && calls == old(calls)
            && Buffers(old(pairs), old(selected), old(keyInput), old(valInput))
          else if old(phase) == ValuePhase then
            var added := old(pairs) + [KeyValue(old(keyInput), old(valInput))];
            && Buffers(added, old(selected), "", "")
            && if max > 0 && |added| >= max then
                 Finished(added, old(calls), old(armed)) && cmd == Tea.Quit
               else
                 phase == KeyPhase && cmd == Tea.NoCmd && armed == old(armed) && calls == old(calls)
          else
            unchanged(this) && cmd == Tea.NoCmd
        case Backspace =>
          Trimmed(old(phase), old(keyInput), old(valInput)) && Kept(old(phase), old(pairs), old(selected), old(armed), old(calls))
          && cmd == Tea.NoCmd
        case CtrlH =>
          Trimmed(old(phase), old(keyInput), old(valInput)) && Kept(old(phase), old(pairs), old(selected), old(armed), old(calls))
          && cmd == Tea.NoCmd
        case Up =>
          && selected == (if old(pairs) != [] && old(phase) == KeyPhase && old(selected) > 0 then old(selected) - 1 else old(selected))
          && Kept(old(phase), old(pairs), selected, old(armed), old(calls))
          && keyInput == old(keyInput) && valInput == old(valInput) && cmd == Tea.NoCmd
        case Down =>
          && selected == (if old(pairs) != [] && old(phase) == KeyPhase && old(selected) < |old(pairs)| - 1 then old(selected) + 1 else old(selected))
          && Kept(old(phase), old(pairs), selected, old(armed), old(calls))
          && keyInput == old(keyInput) && valInput == old(valInput) && cmd == Tea.NoCmd
        case Delete =>
          && (if old(pairs) != [] && old(phase) == KeyPhase then
                && pairs == Remove(old(pairs), old(selected))
                && selected == (if old(selected) > 0 && old(selected) >= |pairs| then old(selected) - 1 else old(selected))
              else
                pairs == old(pairs) && selected == old(selected))
          && phase == old(phase) && armed == old(armed) && calls == old(calls)
          && keyInput == old(keyInput) && valInput == old(valInput) && cmd == Tea.NoCmd
        case Runes(s) =>
          && keyInput == (if old(phase) == KeyPhase then old(keyInput) + s else old(keyInput))
          && valInput == (if old(phase) == ValuePhase then old(valInput) + s else old(valInput))
          && Kept(old(phase), old(pairs), old(selected), old(armed), old(calls)) && cmd == Tea.NoCmd
        case _ => unchanged(this) && cmd == Tea.NoCmd
    {
      cmd := Tea.NoCmd;
      if !msg.KeyMsg? {
        return;
      }
      match msg.key {
        case CtrlC =>
          Finish();
          return Tea.Quit;
        case Esc =>
          Finish();
          return Tea.Quit;
        case Enter =>
          cmd := EnterKey();
        case Backspace =>
          Backspace();
        case CtrlH =>
          Backspace();
        case Up =>
          MoveUp();
        case Down =>
          MoveDown();
        case Delete =>
          DeleteSelected();
        case Runes(text) =>
          TypeText(text);
        case _ =>
      }
    }

    /** Enter: an empty key finishes, a key moves on to its value, a value completes the pair. */
    method EnterKey() returns (cmd: Tea.Cmd)
      requires Valid()
      modifies this
      ensures Valid() && adding == old(adding)
      ensures
        if old(phase) == KeyPhase && old(keyInput) == "" then
          Finished(old(pairs), old(calls), old(armed)) && cmd == Tea.Quit
          && Buffers(old(pairs), old(selected), old(keyInput), old(valInput))
        else if old(phase) == KeyPhase then
          phase == ValuePhase && cmd == Tea.NoCmd && armed == old(armed) && calls == old(calls)
          && Buffers(old(pairs), old(selected), old(keyInput), old(valInput))
        else if old(phase) == ValuePhase then
          var added := old(pairs) + [KeyValue(old(keyInput), old(valInput))];
          && Buffers(added, old(selected), "", "")
          && if max > 0 && |added| >= max then
               Finished(added, old(calls), old(armed)) && cmd == Tea.Quit
             else
               phase == KeyPhase && cmd == Tea.NoCmd && armed == old(armed) && calls == old(calls)
        else
          unchanged(this) && cmd == Tea.NoCmd
    {
      cmd := Tea.NoCmd;
      if phase == KeyPhase {
        if keyInput == "" {
          Finish();
          return Tea.Quit;
        }
        phase := ValuePhase;
        return;
      } else if phase == ValuePhase {
        pairs := pairs + [KeyValue(keyInput, valInput)];
        keyInput := "";
        valInput := "";
        if max > 0 && |pairs| >= max {
          Finish();
          return Tea.Quit;
        }
        phase := KeyPhase;
        return;
      }
    }

    /** Up: the previous pair, in the key phase only. */
    method MoveUp()
      requires Valid()
      modifies this
      ensures Valid() && adding == old(adding)
      ensures selected == (if old(pairs) != [] && old(phase) == KeyPhase && old(selected) > 0 then old(selected) - 1 else old(selected))
      ensures Kept(old(phase), old(pairs), selected, old(armed), old(calls))
      ensures keyInput == old(keyInput) && valInput == old(valInput)
    {
      if |pairs| > 0 && phase == KeyPhase && selected > 0 {
        selected := selected - 1;
      }
    }

    /** Down: the next pair, in the key phase only. */
    method MoveDown()
      requires Valid()
      modifies this
      ensures Valid() && adding == old(adding)
      ensures selected == (if old(pairs) != [] && old(phase) == KeyPhase && old(selected) < |old(pairs)| - 1 then old(selected) + 1 else old(selected))
      ensures Kept(old(phase), old(pairs), selected, old(armed), old(calls))
      ensures keyInput == old(keyInput) && valInput == old(valInput)
    {
      if |pairs| > 0 && phase == KeyPhase && selected < |pairs| - 1 {
        selected := selected + 1;
      }
    }

    /** Delete: removes the selected pair in the key phase, moving the selection up when it fell off the end. */
    method DeleteSelected()
      requires Valid()
      modifies this
      ensures Valid() && adding == old(adding)
      ensures if old(pairs) != [] && old(phase) == KeyPhase then
          && pairs == Remove(old(pairs), old(selected))
          && selected == (if old(selected) > 0 && old(selected) >= |pairs| then old(selected) - 1 else old(selected))
        else
          pairs == old(pairs) && selected == old(selected)
      ensures phase == old(phase) && armed == old(armed) && calls == old(calls)
      ensures keyInput == old(keyInput) && valInput == old(valInput)
    {
      if |pairs| > 0 && phase == KeyPhase && selected >= 0 && selected < |pairs| {
        pairs := Remove(pairs, selected);
        if selected > 0 && selected >= |pairs| {
          selected := selected - 1;
        }
      }
    }

    /** Typed runes extend the current phase's buffer. */
    method TypeText(text: string)
      requires Valid()
      modifies this
      ensures Valid() && adding == old(adding)
      ensures keyInput == (if old(phase) == KeyPhase then old(keyInput) + text else old(keyInput))
      ensures valInput == (if old(phase) == ValuePhase then old(valInput) + text else old(valInput))
      ensures Kept(old(phase), old(pairs), old(selected), old(armed), old(calls))
    {
      if phase == KeyPhase {
        keyInput := keyInput + text;
      } else if phase == ValuePhase {
        valInput := valInput + text;
      }
    }

    /** Backspace and Ctrl+H: drop the last character of the current phase's buffer. */
    method Backspace()
      requires Valid()
      modifies this
      ensures Valid()
      ensures Trimmed(old(phase), old(keyInput), old(valInput))
      ensures Kept(old(phase), old(pairs), old(selected), old(armed), old(calls)) && adding == old(adding)
    {
      if phase == KeyPhase && |keyInput| > 0 {
        keyInput := keyInput[..|keyInput| - 1];
      } else if phase == ValuePhase && |valInput| > 0 {
        valInput := valInput[..|valInput| - 1];
      }
    }

    /** The menu has finished with these pairs, and the handler was called with them if it was still set. */
    predicate Finished(finalPairs: seq<KeyValue>, before: seq<seq<KeyValue>>, wasArmed: bool)
      reads this
    {
      phase == Done && !armed && pairs == finalPairs && calls == Fire(before, wasArmed, finalPairs)
    }

    predicate Buffers(p: seq<KeyValue>, s: int, k: string, v: string)
      reads this
    {
      pairs == p && selected == s && keyInput == k && valInput == v
    }

    predicate Kept(ph: Phase, p: seq<KeyValue>, s: int, a: bool, c: seq<seq<KeyValue>>)
      reads this
    {
      phase == ph && pairs == p && selected == s && armed == a && calls == c
    }

    /** Only the current phase's buffer loses its last character, and only when it has one. */
    predicate Trimmed(ph: Phase, k: string, v: string)
      reads this
    {
      && keyInput == (if ph == KeyPhase && |k| > 0 then k[..|k| - 1] else k)
      && valInput == (if ph == ValuePhase && |v| > 0 then v[..|v| - 1] else v)
    }
  }
}
