/**
 * The number prompt: after every message the input is cut down to its
 * decimal digits; Enter submits unless the input is empty and there is
 * no default. The text input widget is not modelled; each Update receives
 * the text it holds after handling the message, and its command.
 */
module NumberPrompt {
  import opened Strings
  import Tea

  /** The digits of `s`, in order. */
  function Digits(s: string): (r: string)
    ensures AllDigits(r)
    ensures |r| <= |s|
    decreases |s|
  {
    if s == [] then []
    else
      var init := s[..|s| - 1];
      assert s == init + [s[|s| - 1]];
      Digits(init) + (if IsDigit(s[|s| - 1]) then [s[|s| - 1]] else [])
  }

  /** The digits kept are exactly the digits present. */
  lemma {:induction false} DigitsMembers(s: string)
    ensures forall c :: c in Digits(s) <==> c in s && IsDigit(c)
    decreases |s|
  {
    if s != [] {
      var init := s[..|s| - 1];
      DigitsMembers(init);
      assert s == init + [s[|s| - 1]];
    }
  }

  /** Text made only of digits passes unchanged. */
  lemma {:induction false} DigitsOfDigits(s: string)
    requires AllDigits(s)
    ensures Digits(s) == s
    decreases |s|
  {
    if s != [] {
      var init := s[..|s| - 1];
      assert AllDigits(init) by {
        forall i | 0 <= i < |init|
          ensures IsDigit(init[i])
        {
          assert init[i] == s[i];
        }
      }
      DigitsOfDigits(init);
      assert IsDigit(s[|s| - 1]);
      assert Digits(s) == Digits(init) + [s[|s| - 1]];
      assert s == init + [s[|s| - 1]];
    }
  }

  /** Filtering works piecewise, so it keeps the digits in their original order. */
  lemma {:induction false} DigitsAppend(a: string, b: string)
    ensures Digits(a + b) == Digits(a) + Digits(b)
    decreases |b|
  {
    if b == [] {
      assert a + b == a;
    } else {
      var init := b[..|b| - 1];
      assert (a + b)[..|a + b| - 1] == a + init;
      DigitsAppend(a, init);
    }
  }

  /** Filtering twice is filtering once. */
  lemma DigitsIdempotent(s: string)
    ensures Digits(Digits(s)) == Digits(s)
  {
    DigitsOfDigits(Digits(s));
  }

  /** The rune loop of Update. */
  method FilterDigits(s: string) returns (filtered: string)
    ensures filtered == Digits(s)
  {
    filtered := "";
    var i := 0;
    while i < |s|
      invariant 0 <= i <= |s|
      invariant filtered == Digits(s[..i])
    {
      assert s[..i + 1][..i] == s[..i];
      if '0' <= s[i] <= '9' {
        filtered := filtered + [s[i]];
      }
      i := i + 1;
    }
    assert s[..i] == s;
  }

  /** What newComponent does once the program ends: the handler gets the text, or the process exits with status 1. */
  datatype Outcome = Submitted(result: string) | ExitNoValue

  /** The handler receives the lower-cased input, which for digits is the input itself. */
  function Finish(submitted: bool, value: string): (r: Outcome)
    requires AllDigits(value)
    ensures r.Submitted? <==> submitted
    ensures r.Submitted? ==> r.result == value
  {
    if submitted then
      assert ToLower(value) == value;
      Submitted(ToLower(value))
    else ExitNoValue
  }

  class NumberPrompt {
    const title: string
    const incorrectTitleMessage: string
    const default: int
    const maxLength: int
    var value: string
    var invalid: bool
    var submitted: bool

    /** The input holds digits only, and a submitted prompt has either an input or a default. */
    predicate Valid()
      reads this
    {
      AllDigits(value) && (submitted ==> value != "" || default != 0)
    }

    /** newComponent: empty input, neither invalid nor submitted. */
    constructor (promptTitle: string, incorrectMessage: string, defaultValue: int, maxLen: int)
      ensures Valid()
      ensures title == promptTitle && incorrectTitleMessage == incorrectMessage
      ensures default == defaultValue && maxLength == maxLen
      ensures value == "" && !invalid && !submitted
    {
      title := promptTitle;
      incorrectTitleMessage := incorrectMessage;
      default := defaultValue;
      maxLength := maxLen;
      value := "";
      invalid := false;
      submitted := false;
    }

    /**
     * Update. A submitted prompt only quits. Otherwise the input becomes
     * the digits of the widget's text; typing clears the invalid mark;
     * Enter marks an empty input invalid when there is no default, and
     * submits in every other case.
     */
    method Update(msg: Tea.Msg, typed: string, inputCmd: Tea.Cmd) returns (cmd: Tea.Cmd)
      requires Valid()
      modifies this
      ensures Valid()
      ensures old(submitted) ==> unchanged(this) && cmd == Tea.Quit
      ensures !old(submitted) ==> value == Digits(typed)
      ensures !old(submitted) && msg.KeyMsg? && msg.key.Enter? ==>
        if Digits(typed) == "" && default == 0 then invalid && !submitted && cmd == Tea.NoCmd
        else submitted && invalid == old(invalid) && cmd == Tea.Quit
      ensures !old(submitted) && msg.KeyMsg? && msg.key.Runes? ==> !invalid && !submitted && cmd == inputCmd
      ensures !old(submitted) && msg.KeyMsg? && (msg.key.CtrlC? || msg.key.Esc?) ==>
        !submitted && invalid == old(invalid) && cmd == Tea.Quit
      ensures !old(submitted) && !(msg.KeyMsg? && (msg.key.Enter? || msg.key.Runes? || msg.key.CtrlC? || msg.key.Esc?)) ==>
        !submitted && invalid == old(invalid) && cmd == inputCmd
    {
      if submitted {
        return Tea.Quit;
      }
      value := typed;
      cmd := inputCmd;
      var filtered := FilterDigits(value);
      if filtered != value {
        value := filtered;
      }
      if msg.KeyMsg? {
        match msg.key {
          case Runes(_) =>
            invalid := false;
          case Enter =>
            if value == "" && default == 0 {
              invalid := true;
              return Tea.NoCmd;
            }
            submitted := true;
            return Tea.Quit;
          case CtrlC =>
            return Tea.Quit;
          case Esc =>
            return Tea.Quit;
          case _ =>
        }
      }
    }
  }
}
