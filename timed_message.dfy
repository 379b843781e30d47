/**
 * A message shown for a while and then hidden. The sleep before expiry is
 * not modelled: running the expiry command is the method `Expire`.
 */
module TimedMessage {
  import Tea

  class TimedMessage {
    var message: string
    var visible: bool
    /** time.Duration, in nanoseconds. */
    var duration: int

    /** NewTimedMessage: hidden, with no text and no duration. */
    constructor ()
      ensures message == "" && !visible && duration == 0
    {
      message := "";
      visible := false;
      duration := 0;
    }

    /** What the message renders to; styling is not modelled. */
    function Render(): (r: string)
      reads this
      ensures !visible ==> r == ""
      ensures visible ==> r == message
    {
      if visible then message else ""
    }

    /** Show: records the text and duration, becomes visible, and hands back the expiry command. */
    method Show(text: string, d: int) returns (cmd: Tea.Cmd)
      modifies this
      ensures message == text && visible && duration == d
      ensures Render() == text
      ensures cmd == Tea.MessageTimeout
    {
      message := text;
      visible := true;
      duration := d;
      cmd := Tea.MessageTimeout;
    }

    /** The expiry command's effect: hidden again, text and duration kept. */
    method Expire()
      modifies this
      ensures !visible && message == old(message) && duration == old(duration)
      ensures Render() == ""
    {
      visible := false;
    }
  }
}
