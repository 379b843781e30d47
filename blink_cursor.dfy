/**
 * A blinking text cursor. The tick timer is not modelled: the callback it
 * runs after each blink interval is the method `Tick`.
 */
module BlinkCursor {
  import opened Wrappers
  import Tea

  /** The blink interval, 500ms in nanoseconds. */
  const BlinkRate: int := 500_000_000

  class BlinkCursor {
    var cursorChar: char
    var visible: bool
    var blinking: bool
    var blinkRate: int

    /** New: visible and blinking, drawn as '|'. */
    constructor ()
      ensures cursorChar == '|' && visible && blinking && blinkRate == BlinkRate
      ensures Render() == '|'
    {
      cursorChar := '|';
      visible := true;
      blinking := true;
      blinkRate := BlinkRate;
    }

    /** The cursor character while it is both visible and in the "on" half of a blink, a space otherwise. */
    function Render(): (r: char)
      reads this
      ensures r == cursorChar <==> (blinking && visible) || cursorChar == ' '
      ensures !(blinking && visible) ==> r == ' '
    {
      if blinking && visible then cursorChar else ' '
    }

    /** Show: visible again, with the blink timer armed. */
    method Show() returns (cmd: Tea.Cmd)
      modifies this
      ensures visible && blinking == old(blinking) && cursorChar == old(cursorChar) && blinkRate == old(blinkRate)
      ensures cmd == Tea.BlinkTick
    {
      visible := true;
      cmd := Tea.BlinkTick;
    }

    /** The timer callback: flips the blink while visible; once hidden it stops blinking and sends nothing. */
    method Tick() returns (msg: Option<Tea.Msg>)
      modifies this
      ensures old(visible) ==> blinking == !old(blinking) && msg == Some(Tea.BlinkCursorMsg)
      ensures !old(visible) ==> !blinking && msg == None
      ensures visible == old(visible) && cursorChar == old(cursorChar)
    {
      if !visible {
        blinking := false;
        return None;
      }
      blinking := !blinking;
      msg := Some(Tea.BlinkCursorMsg);
    }

    /** Hide: neither visible nor blinking, so it renders as a space. */
    method Hide()
      modifies this
      ensures !visible && !blinking && cursorChar == old(cursorChar)
      ensures Render() == ' '
    {
      visible := false;
      blinking := false;
    }
  }

  /**
   * A scenario, not an operation of the component: while visible, two
   * ticks bring the cursor back to how it was drawn. It is a method because
   * Tick changes the cursor's fields, and only a method can call it.
   */
  method TwoTicksScenario(c: BlinkCursor)
    requires c.visible
    modifies c
    ensures c.Render() == old(c.Render())
  {
    var m1 := c.Tick();
    var m2 := c.Tick();
  }
}
