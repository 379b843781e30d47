/**
 * Terminal sizing: a measured width or height clamped to a maximum. The
 * measurement (term.GetSize on standard output) is a parameter.
 */
module TerminalUtility {
  /** What term.GetSize reported for one dimension. */
  datatype Measurement = Failed | Measured(size: int)

  /**
   * GetTerminalWidth: max when the measurement failed or is not positive,
   * max when it exceeds max, the measurement itself otherwise.
   */
  function GetTerminalWidth(width: Measurement, max: int): (r: int)
    ensures r <= max
    ensures width.Failed? || width.size <= 0 || width.size > max ==> r == max
    ensures width.Measured? && 0 < width.size <= max ==> r == width.size
    ensures max >= 1 ==> 1 <= r
  {
    if width.Failed? || width.size <= 0 then max
    else if width.size > max then max
    else width.size
  }

  /** GetTerminalHeight: the same rule for the height. */
  function GetTerminalHeight(height: Measurement, max: int): (r: int)
    ensures r == GetTerminalWidth(height, max)
    ensures max >= 1 ==> 1 <= r <= max
  {
    if height.Failed? || height.size <= 0 then max
    else if height.size > max then max
    else height.size
  }
}
