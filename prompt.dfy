/**
 * The one-line prompt: free text, or a yes/no question with a default.
 * The text input widget itself is not modelled; each Update receives the
 * text the widget holds after handling the message, and the command the
 * widget returned.
 */
module Prompt {
  import opened Strings
  import Tea

  /** The answers a submitted prompt can hold: y/Y/n/N for a yes/no question, any non-empty text otherwise. */
  predicate Accepted(isBoolean: bool, value: string) {
    if isBoolean then value in {"y", "Y", "n", "N"} else value != ""
  }

  /** What NewComponent does once the program ends: the handler gets the lower-cased text, or the process exits with status 1. */
  datatype Outcome = Submitted(result: string) | ExitNoValue

  function Finish(submitted: bool, value: string): (r: Outcome)
    ensures r.Submitted? <==> submitted
    ensures r.Submitted? ==> |r.result| == |value|
    ensures r.Submitted? ==> forall i :: 0 <= i < |value| ==> r.result[i] == ToLowerChar(value[i])
  {
    if submitted then Submitted(ToLower(value)) else ExitNoValue
  }

  /** A submitted yes/no prompt hands the handler exactly "y" or "n". */
  lemma BooleanAnswer(value: string)
    requires Accepted(true, value)
    ensures Finish(true, value).result in {"y", "n"}
    ensures Finish(true, value).result == "y" <==> value in {"y", "Y"}
  {
    assert ToLower(value) == [ToLowerChar(value[0])];
  }

  class Prompt {
    const title: string
    const incorrectTitleMessage: string
    const isBoolean: bool
    const booleanDefault: bool
    const maxLength: int
    /** The text input's value. */
    var value: string
    var invalid: bool
    var submitted: bool

    /** A submitted prompt holds an accepted answer. */
    predicate Valid()
      reads this
    {
      submitted ==> Accepted(isBoolean, value)
    }

    /** NewComponent: empty input, neither invalid nor submitted. */
    constructor (promptTitle: string, incorrectMessage: string, boolean: bool, booleanDefaultYes: bool, maxLen: int)
      ensures Valid()
      ensures title == promptTitle && incorrectTitleMessage == incorrectMessage
      ensures isBoolean == boolean && booleanDefault == booleanDefaultYes && maxLength == maxLen
      ensures value == "" && !invalid && !submitted
    {
      title := promptTitle;
      incorrectTitleMessage := incorrectMessage;
      isBoolean := boolean;
      booleanDefault := booleanDefaultYes;
      maxLength := maxLen;
      value := "";
      invalid := false;
      submitted := false;
    }

    /**
     * Update. A submitted prompt only quits. Otherwise the input takes the
     * widget's text; typing clears the invalid mark; Enter submits an
     * accepted answer (an empty yes/no answer becomes the default) and
     * marks anything else invalid; Ctrl+C and Esc quit without submitting.
     */
    method Update(msg: Tea.Msg, typed: string, inputCmd: Tea.Cmd) returns (cmd: Tea.Cmd)
      requires Valid()
      modifies this
      ensures Valid()
      ensures old(submitted) ==> unchanged(this) && cmd == Tea.Quit
      ensures !old(submitted) && msg.KeyMsg? && msg.key.Enter? ==>
        if isBoolean && typed == "" then
          value == (if booleanDefault then "y" else "n") && submitted && invalid == old(invalid) && cmd == Tea.Quit
        else if Accepted(isBoolean, typed) then
          value == typed && submitted && invalid == old(invalid) && cmd == Tea.Quit
        else
          value == typed && !submitted && invalid && cmd == Tea.NoCmd
      ensures !old(submitted) && msg.KeyMsg? && msg.key.Runes? ==>
        value == typed && !submitted && !invalid && cmd == inputCmd
      ensures !old(submitted) && msg.KeyMsg? && (msg.key.CtrlC? || msg.key.Esc?) ==>
        value == typed && !submitted && invalid == old(invalid) && cmd == Tea.Quit
      ensures !old(submitted) && !(msg.KeyMsg? && (msg.key.Enter? || msg.key.Runes? || msg.key.CtrlC? || msg.key.Esc?)) ==>
        value == typed && !submitted && invalid == old(invalid) && cmd == inputCmd
    {
      if submitted {
        return Tea.Quit;
      }
      value := typed;
      cmd := inputCmd;
      if msg.KeyMsg? {
        match msg.key {
          case Runes(_) =>
            invalid := false;
          case Enter =>
            if isBoolean {
              if value == "" {
                value := if booleanDefault then "y" else "n";
                submitted := true;
                return Tea.Quit;
              }
              if value == "y" || value == "Y" {
                submitted := true;
                return Tea.Quit;
              } else {
                if value == "n" || value == "N" {
                  submitted := true;
                  return Tea.Quit;
                }
                invalid := true;
                return Tea.NoCmd;
              }
            }
            if value == "" {
              invalid := true;
              return Tea.NoCmd;
            }
            submitted := true;
            return Tea.Quit;
          case CtrlC =>
            return Tea.Quit;
          case Esc =>
            return Tea.Quit;
          case _ =>
        }
      }
    }
  }
}
