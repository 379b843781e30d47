/**
 * The part of the bubbletea runtime the components talk to: the key
 * messages they react to and the commands they hand back. Rendering,
 * styles and the event loop itself are not modelled.
 */
module Tea {

  /**
   * A bubbletea key. The components dispatch every key on its type; a
   * `Runes` key then carries what they read from it, KeyMsg.String(), which
   * is RunesText of the typed runes and the Alt and paste flags. The rest
   * are named keys.
   */
  datatype Key =
    | Runes(text: string)
    | Space
    | Enter
    | Backspace
    | CtrlH
    | Delete
    | Up
    | Down
    | Left
    | Right
    | PgUp
    | PgDown
    | CtrlC
    | Esc
    | CtrlP
    | CtrlN
    | OtherKey(name: string)

  /** KeyMsg.String() of a key without Alt; a `Runes` key already carries its String() (see RunesText). */
  function KeyString(k: Key): string {
    match k
    case Runes(t) => t
    case Space => " "
    case Enter => "enter"
    case Backspace => "backspace"
    case CtrlH => "ctrl+h"
    case Delete => "delete"
    case Up => "up"
    case Down => "down"
    case Left => "left"
    case Right => "right"
    case PgUp => "pgup"
    case PgDown => "pgdown"
    case CtrlC => "ctrl+c"
    case Esc => "esc"
    case CtrlP => "ctrl+p"
    case CtrlN => "ctrl+n"
    case OtherKey(n) => n
  }

  /**
   * KeyMsg.String() of a rune key: the runes, bracketed when they were
   * pasted, after "alt+" when Alt was held.
   */
  function RunesText(runes: string, alt: bool, paste: bool): (t: string)
    ensures !alt && !paste ==> t == runes
    ensures |t| == |runes| + (if alt then 4 else 0) + (if paste then 2 else 0)
    ensures alt ==> t[..4] == "alt+"
    ensures paste ==> t[|t| - 1] == ']' && t[if alt then 4 else 0] == '['
  {
    (if alt then "alt+" else "") + (if paste then "[" + runes + "]" else runes)
  }

  /**
   * A typed key held with Alt, or pasted, never reads as a single
   * character, so it never matches the one-letter commands ("q", "c", a
   * digit, "y", "n") the components compare against.
   */
  lemma ModifiedRunesAreNotSingle(runes: string, alt: bool, paste: bool)
    requires runes != [] && (alt || paste)
    ensures |RunesText(runes, alt, paste)| >= 3
    ensures forall c: char :: RunesText(runes, alt, paste) != [c]
  {
  }

  /** Messages a component's Update receives. */
  datatype Msg =
    | KeyMsg(key: Key)
    | BlinkCursorMsg
    | OtherMsg

  /** Commands a component's Update returns. */
  datatype Cmd =
    | NoCmd
    | Quit
    | BlinkTick       // tea.Tick armed by the blink cursor
    | MessageTimeout  // tea.Tick armed by a timed message
    | Batch(cmds: seq<Cmd>)
}
