/**
 * The second copy of the terminal-size clamp, used by the help screen;
 * its rule is the one of TerminalUtility.
 */
module TermSize {
  import TerminalUtility

  type Measurement = TerminalUtility.Measurement

  /** GetTerminalWidth */
  function GetTerminalWidth(width: Measurement, max: int): (r: int)
    ensures r == TerminalUtility.GetTerminalWidth(width, max)
    ensures r <= max && (max >= 1 ==> 1 <= r)
  {
    if width.Failed? || width.size <= 0 then max
    else if width.size > max then max
    else width.size
  }

  /** GetTerminalHeight */
  function GetTerminalHeight(height: Measurement, max: int): (r: int)
    ensures r == TerminalUtility.GetTerminalHeight(height, max)
    ensures r <= max && (max >= 1 ==> 1 <= r)
  {
    if height.Failed? || height.size <= 0 then max
    else if height.size > max then max
    else height.size
  }
}
