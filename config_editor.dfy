/**
 * The configuration editor: two options (the slow-response threshold, a
 * number, and the hide-logomark flag, a boolean), a choice between them,
 * and an editing mode that collects digits and saves through the
 * configuration store.
 */
module ConfigEditor {
  import opened Wrappers
  import opened Strings
  import Tea
  import Config
  import TimedMessage
  import BlinkCursor

  datatype OptionKind = NumberOption | BoolOption
  datatype OptionValue = IntValue(i: int) | BoolValue(b: bool)
  datatype ConfigOption = ConfigOption(kind: OptionKind, configKey: string, name: string, value: OptionValue)

  const ThresholdKey := "SlowResponseThreshold"
  const LogomarkKey := "HideLogomark"
  /** How long "Saved" stays on screen: one second, in nanoseconds. */
  const SavedDuration := 1_000_000_000

  /** getConfigOptions: the threshold option, then the logomark option, each carrying its current value. */
  function ConfigOptions(c: Config.Config): (r: seq<ConfigOption>)
    ensures |r| == 2
    ensures r[0].kind == NumberOption && r[0].configKey == ThresholdKey && r[0].value == IntValue(c.slowResponseThreshold)
    ensures r[1].kind == BoolOption && r[1].configKey == LogomarkKey && r[1].value == BoolValue(c.hideLogomark)
  {
    [ ConfigOption(NumberOption, ThresholdKey, "Slow response threshold(ms)", IntValue(c.slowResponseThreshold)),
      ConfigOption(BoolOption, LogomarkKey, "Hide logomark", BoolValue(c.hideLogomark)) ]
  }

  /** A value as %v prints it; Atoi reads a printed int64 back. */
  function ValueText(v: OptionValue): (r: string)
    ensures v.IntValue? && MinInt64 <= v.i <= MaxInt64 ==> Atoi(r) == Some(v.i)
    ensures v.BoolValue? ==> (r == "true" <==> v.b) && (r == "false" <==> !v.b)
  {
    match v
    case IntValue(i) => ReadsBack(i); IntToString(i)
    case BoolValue(b) => if b then "true" else "false"
  }

  lemma ReadsBack(i: int)
    ensures MinInt64 <= i <= MaxInt64 ==> Atoi(IntToString(i)) == Some(i)
  {
    if MinInt64 <= i <= MaxInt64 {
      AtoiIntToString(i);
    }
  }

  /**
   * The setter saveChanges applies for an option key: the logomark key
   * toggles the flag; the threshold key sets 0 for empty text, the parsed
   * value when Atoi accepts the text, and nothing otherwise.
   */
  function Apply(c: Config.Config, key: string, text: string): (r: Config.Config)
    ensures key == LogomarkKey ==> r == c.(hideLogomark := !c.hideLogomark)
    ensures key == ThresholdKey && text == "" ==> r == c.(slowResponseThreshold := 0)
    ensures key == ThresholdKey && Atoi(text).Some? ==> r == c.(slowResponseThreshold := Atoi(text).value)
    ensures key == ThresholdKey && text != "" && Atoi(text).None? ==> r == c
    ensures key != LogomarkKey && key != ThresholdKey ==> r == c
  {
    if key == LogomarkKey then c.(hideLogomark := !c.hideLogomark)
    else if key == ThresholdKey then
      if text == "" then c.(slowResponseThreshold := 0)
      else match Atoi(text)
        case Some(n) => c.(slowResponseThreshold := n)
        case None => c
    else c
  }

  /** Saving the number option with the text Enter put there leaves the configuration as it was. */
  lemma SaveUneditedThreshold(c: Config.Config)
    requires MinInt64 <= c.slowResponseThreshold <= MaxInt64
    ensures Apply(c, ThresholdKey, ValueText(ConfigOptions(c)[0].value)) == c
  {
    assert ValueText(IntValue(c.slowResponseThreshold)) != "";
  }

  /** Saving the boolean option twice restores it. */
  lemma ToggleTwice(c: Config.Config)
    ensures Apply(Apply(c, LogomarkKey, ""), LogomarkKey, "") == c
  {
  }

  /** The single-digit texts the editor accepts while editing a number. */
  predicate IsDigitKey(text: string) {
    |text| == 1 && IsDigit(text[0])
  }

  class Editor {
    var config: Config.Config
    var options: seq<ConfigOption>
    var choice: int
    var editing: bool
    var editingValue: string
    /** The configurations passed to UpdateConfig, in order. */
    var written: seq<Config.Config>
    const savedMessage: TimedMessage.TimedMessage
    const blinkCursor: BlinkCursor.BlinkCursor

    /** The options show the current configuration, and the choice addresses one of them. */
    predicate Valid()
      reads this
    {
      options == ConfigOptions(config) && 0 <= choice < |options|
    }

    /** initialModel, given what GetConfig returned. */
    constructor (loaded: Config.Config)
      ensures Valid()
      ensures config == loaded && choice == 0 && !editing && editingValue == "" && written == []
      ensures fresh(savedMessage) && fresh(blinkCursor)
      ensures savedMessage.Render() == "" && blinkCursor.Render() == '|'
    {
      config := loaded;
      options := ConfigOptions(loaded);
      choice := 0;
      editing := false;
      editingValue := "";
      written := [];
      savedMessage := new TimedMessage.TimedMessage();
      blinkCursor := new BlinkCursor.BlinkCursor();
    }

    /** navigateUp: one option up, not past the first. */
    method NavigateUp()
      requires Valid()
      modifies this
      ensures Valid()
      ensures choice == (if old(choice) > 0 then old(choice) - 1 else old(choice))
      ensures config == old(config) && editing == old(editing) && editingValue == old(editingValue) && written == old(written)
    {
      if choice > 0 {
        choice := choice - 1;
      }
    }

    /** navigateDown: one option down, not past the last. */
    method NavigateDown()
      requires Valid()
      modifies this
      ensures Valid()
      ensures choice == (if old(choice) < |options| - 1 then old(choice) + 1 else old(choice))
      ensures config == old(config) && editing == old(editing) && editingValue == old(editingValue) && written == old(written)
    {
      if choice < |options| - 1 {
        choice := choice + 1;
      }
    }

    /** backspace: trims the edited text, only while a number option is being edited. */
    method Backspace()
      requires Valid()
      modifies this
      ensures Valid()
      ensures editingValue ==
        if old(editing) && options[choice].kind == NumberOption && |old(editingValue)| > 0
        then old(editingValue)[..|old(editingValue)| - 1] else old(editingValue)
      ensures config == old(config) && choice == old(choice) && editing == old(editing) && written == old(written)
    {
      var current := options[choice];
      if !editing || current.kind != NumberOption {
        return;
      }
      if editing && |editingValue| > 0 {
        editingValue := editingValue[..|editingValue| - 1];
      }
    }

    /**
     * saveChanges: nothing unless editing; otherwise the chosen option's
     * setter is applied, the options are rebuilt from the new
     * configuration, it is written to the store, editing ends and "Saved"
     * is shown for a second.
     */
    method SaveChanges() returns (cmd: Tea.Cmd)
      requires Valid()
      modifies this, savedMessage
      ensures Valid()
      ensures !old(editing) ==> unchanged(this) && unchanged(savedMessage) && cmd == Tea.NoCmd
      ensures old(editing) ==>
        && config == Apply(old(config), old(options)[old(choice)].configKey, old(editingValue))
        && written == old(written) + [config]
        && choice == old(choice) && !editing && editingValue == ""
        && cmd == Tea.MessageTimeout
        && savedMessage.Render() == "Saved" && savedMessage.duration == SavedDuration
    {
      if !editing {
        return Tea.NoCmd;
      }
      var current := options[choice];
      var newConfig := Apply(config, current.configKey, editingValue);
      config := newConfig;
      options := ConfigOptions(newConfig);
      written := written + [newConfig];
      editing := false;
      editingValue := "";
      cmd := savedMessage.Show("Saved", SavedDuration);
    }

    /** keyRunes: 'q' quits, a digit extends a number being edited, y/Y saves, n/N cancels editing. */
    method KeyRunes(text: string) returns (cmd: Tea.Cmd)
      requires Valid()
      modifies this, savedMessage
      ensures Valid()
      ensures text == "q" ==> unchanged(this) && cmd == Tea.Quit
      ensures IsDigitKey(text) ==>
        && editingValue == (if old(editing) && options[choice].kind == NumberOption then old(editingValue) + text else old(editingValue))
        && config == old(config) && choice == old(choice) && editing == old(editing) && written == old(written)
        && cmd == Tea.NoCmd
      ensures text == "y" || text == "Y" ==>
        && (old(editing) ==>
             (config == Apply(old(config), old(options)[old(choice)].configKey, old(editingValue))
              && written == old(written) + [config] && !editing && editingValue == "" && cmd == Tea.MessageTimeout))
        && (!old(editing) ==> unchanged(this) && cmd == Tea.NoCmd)
      ensures text == "n" || text == "N" ==>
        && !editing && editingValue == "" && config == old(config) && choice == old(choice) && written == old(written)
        && cmd == Tea.NoCmd
      ensures text !in {"q", "y", "Y", "n", "N"} && !IsDigitKey(text) ==> unchanged(this) && cmd == Tea.NoCmd
      ensures text != "y" && text != "Y" ==> unchanged(savedMessage)
    {
      cmd := Tea.NoCmd;
      if text == "q" {
        cmd := Tea.Quit;
      } else if IsDigitKey(text) {
        var current := options[choice];
        if editing && current.kind == NumberOption {
          editingValue := editingValue + text;
        }
      } else if text == "y" || text == "Y" {
        cmd := SaveChanges();
      } else if text == "n" || text == "N" {
        editing := false;
        editingValue := "";
      }
    }

    /**
     * Update. A blink message hides the cursor unless editing (and
     * re-arms it while editing); Ctrl+C and Esc quit; Enter starts
     * editing with the chosen option's printed value, or saves when
     * already editing; the other keys go to the helpers above.
     */
    method Update(msg: Tea.Msg) returns (cmd: Tea.Cmd)
      requires Valid()
      modifies this, savedMessage, blinkCursor
      ensures Valid()
      ensures msg.BlinkCursorMsg? ==>
        && unchanged(this) && unchanged(savedMessage)
        && (!editing ==> cmd == Tea.NoCmd && blinkCursor.Render() == ' ')
        && (editing ==> cmd == Tea.BlinkTick && blinkCursor.visible)
      ensures msg.OtherMsg? ==> unchanged(this) && cmd == Tea.NoCmd
      ensures msg.KeyMsg? && (msg.key.CtrlC? || msg.key.Esc?) ==> unchanged(this) && cmd == Tea.Quit
      ensures msg.KeyMsg? && msg.key.Enter? && !old(editing) ==>
        && editing && editingValue == ValueText(options[choice].value)
        && config == old(config) && choice == old(choice) && written == old(written)
        && cmd == Tea.BlinkTick && blinkCursor.visible
      ensures msg.KeyMsg? && msg.key.Enter? && old(editing) ==>
        && config == Apply(old(config), old(options)[old(choice)].configKey, old(editingValue))
        && written == old(written) + [config] && !editing && editingValue == ""
        && cmd == Tea.MessageTimeout
      ensures msg.KeyMsg? && msg.key.Up? ==> choice == (if old(choice) > 0 then old(choice) - 1 else old(choice)) && cmd == Tea.NoCmd
      ensures msg.KeyMsg? && msg.key.Down? ==> choice == (if old(choice) < |options| - 1 then old(choice) + 1 else old(choice)) && cmd == Tea.NoCmd
      ensures msg.KeyMsg? && (msg.key.Up? || msg.key.Down? || msg.key.Backspace?) ==>
        config == old(config) && editing == old(editing) && written == old(written)
      ensures msg.KeyMsg? && msg.key.Runes? && (msg.key.text == "n" || msg.key.text == "N") ==>
        !editing && editingValue == "" && config == old(config) && written == old(written)
      ensures msg.KeyMsg? && (msg.key.Up? || msg.key.Down?) ==> editingValue == old(editingValue)
      ensures msg.KeyMsg? && msg.key.Backspace? ==>
        && choice == old(choice) && cmd == Tea.NoCmd
        && editingValue ==
             if old(editing) && options[choice].kind == NumberOption && |old(editingValue)| > 0
             then old(editingValue)[..|old(editingValue)| - 1] else old(editingValue)
      ensures msg.KeyMsg? && msg.key.Runes? && msg.key.text == "q" ==> unchanged(this) && cmd == Tea.Quit
      ensures msg.KeyMsg? && msg.key.Runes? && IsDigitKey(msg.key.text) ==>
        && editingValue == (if old(editing) && options[choice].kind == NumberOption then old(editingValue) + msg.key.text else old(editingValue))
        && config == old(config) && choice == old(choice) && editing == old(editing) && written == old(written)
        && cmd == Tea.NoCmd
      ensures msg.KeyMsg? && msg.key.Runes? && (msg.key.text == "y" || msg.key.text == "Y") ==>
        && (old(editing) ==>
             (config == Apply(old(config), old(options)[old(choice)].configKey, old(editingValue))
              && written == old(written) + [config] && !editing && editingValue == "" && cmd == Tea.MessageTimeout))
        && (!old(editing) ==> unchanged(this) && cmd == Tea.NoCmd)
      ensures msg.KeyMsg? && msg.key.Runes? && msg.key.text !in {"q", "y", "Y", "n", "N"} && !IsDigitKey(msg.key.text) ==>
        unchanged(this) && cmd == Tea.NoCmd
      ensures msg.KeyMsg? && !(msg.key.Runes? || msg.key.CtrlC? || msg.key.Esc? || msg.key.Enter? || msg.key.Up? || msg.key.Down? || msg.key.Backspace?) ==>
        unchanged(this) && unchanged(savedMessage) && cmd == Tea.NoCmd
    {
      cmd := Tea.NoCmd;
      if msg.BlinkCursorMsg? {
        if !editing {
          blinkCursor.Hide();
          return;
        }
        cmd := blinkCursor.Show();
        return;
      }
      if !msg.KeyMsg? {
        return;
      }
      match msg.key {
        case CtrlC => cmd := Tea.Quit;
        case Esc => cmd := Tea.Quit;
        case Runes(text) => cmd := KeyRunes(text);
        case Backspace => Backspace();
        case Up => NavigateUp();
        case Down => NavigateDown();
        case Enter =>
          if !editing {
            editing := true;
            editingValue := ValueText(options[choice].value);
            cmd := blinkCursor.Show();
          } else {
            cmd := SaveChanges();
          }
        case _ =>
      }
    }
  }
}
