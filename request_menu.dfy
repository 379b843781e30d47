/**
 * The request menu: five tabs over one response, each with its own scroll
 * offset and the line count of its last render, driven by key messages.
 * The ten offset and line-count fields are kept as two five-element
 * sequences indexed by tab. The clipboard is a parameter saying whether
 * the copy succeeded; what each tab's text is made of lives in TabContent.
 */
module RequestMenu {
  import opened Strings
  import Tea
  import Paging
  import Config
  import Request
  import TimedMessage

  type Tab = t: int | 0 <= t < 5

  const ResultTab: Tab := 0
  const RequestInfosTab: Tab := 1
  const NetworkInfosTab: Tab := 2
  const RequestHeadersTab: Tab := 3
  const ResponseHeadersTab: Tab := 4

  const TabNames: seq<string> := ["Response", "Request Infos", "Network Infos", "Request Headers", "Response Headers"]

  /** tab_MoveRight's rotation. */
  function NextTab(t: Tab): Tab {
    (t + 1) % |TabNames|
  }

  /** tab_MoveLeft's rotation; t - 1 + 5 is never negative, so Go's remainder agrees. */
  function PrevTab(t: Tab): Tab {
    (t - 1 + |TabNames|) % |TabNames|
  }

  /** Left undoes Right and Right undoes Left; both wrap around at the ends. */
  lemma TabRotation(t: Tab)
    ensures PrevTab(NextTab(t)) == t && NextTab(PrevTab(t)) == t
    ensures NextTab(ResponseHeadersTab) == ResultTab && PrevTab(ResultTab) == ResponseHeadersTab
    ensures NextTab(t) != t
  {
  }

  /** n presses of Right. */
  function Rights(t: Tab, n: nat): Tab
    decreases n
  {
    if n == 0 then t else Rights(NextTab(t), n - 1)
  }

  /** Right moves by one tab modulo five, so five presses come back. */
  lemma {:induction false} RightsModulo(t: Tab, n: nat)
    ensures Rights(t, n) == (t + n) % 5
    decreases n
  {
    if n > 0 {
      RightsModulo(NextTab(t), n - 1);
      if t == 4 {
        assert NextTab(t) == 0;
        assert t + n == (n - 1) + 5;
      } else {
        assert NextTab(t) + (n - 1) == t + n;
      }
    }
  }

  /** What Update changes: the active tab and the scroll offsets. */
  datatype View = View(tab: Tab, offsets: seq<int>)

  /** Five offsets and five line counts, none negative. */
  predicate Sound(v: View, amounts: seq<int>) {
    && |v.offsets| == 5 && |amounts| == 5
    && (forall t :: 0 <= t < 5 ==> v.offsets[t] >= 0)
    && (forall t :: 0 <= t < 5 ==> amounts[t] >= 0)
  }

  /** The active tab's offset after an Up, Down, PgUp or PgDown. */
  function Scrolled(key: Tea.Key, tab: Tab, offset: int, amount: int, height: int): int {
    match key
    case Up => Paging.ScrollUp(offset)
    case Down => if tab == ResultTab then Paging.ResultScrollDown(offset, amount)
                 else Paging.ScrollDown(offset, amount, Paging.MaxLines(height))
    case PgUp => Paging.ScrollPgUp(offset)
    case PgDown => Paging.ScrollPgDown(offset, amount, Paging.MaxLines(height))
    case _ => offset
  }

  predicate IsScrollKey(key: Tea.Key) {
    key == Tea.Up || key == Tea.Down || key == Tea.PgUp || key == Tea.PgDown
  }

  /** Update's effect on the view for one key. */
  function KeyStep(v: View, amounts: seq<int>, key: Tea.Key, height: int): View
    requires |v.offsets| == 5 && |amounts| == 5
  {
    match key
    case Right => View(NextTab(v.tab), v.offsets[ResultTab := 0])
    case Left => View(PrevTab(v.tab), v.offsets[ResultTab := 0])
    case Up => View(v.tab, v.offsets[v.tab := Scrolled(key, v.tab, v.offsets[v.tab], amounts[v.tab], height)])
    case Down => View(v.tab, v.offsets[v.tab := Scrolled(key, v.tab, v.offsets[v.tab], amounts[v.tab], height)])
    case PgUp => View(v.tab, v.offsets[v.tab := Scrolled(key, v.tab, v.offsets[v.tab], amounts[v.tab], height)])
    case PgDown => View(v.tab, v.offsets[v.tab := Scrolled(key, v.tab, v.offsets[v.tab], amounts[v.tab], height)])
    case _ => v
  }

  /** No key makes an offset negative. */
  lemma KeyStepSound(v: View, amounts: seq<int>, key: Tea.Key, height: int)
    requires Sound(v, amounts)
    ensures Sound(KeyStep(v, amounts, key, height), amounts)
  {
  }

  /** The scroll keys move only the active tab's offset. */
  lemma ScrollKeysTouchActiveTabOnly(v: View, amounts: seq<int>, key: Tea.Key, height: int)
    requires |v.offsets| == 5 && |amounts| == 5 && IsScrollKey(key)
    ensures var w := KeyStep(v, amounts, key, height);
      w.tab == v.tab && |w.offsets| == 5 && forall t :: 0 <= t < 5 && t != v.tab ==> w.offsets[t] == v.offsets[t]
  {
  }

  /** Right and Left change the tab, reset only the response tab's offset, and undo each other's tab. */
  lemma TabKeysResetResultOffset(v: View, amounts: seq<int>, height: int)
    requires |v.offsets| == 5 && |amounts| == 5
    ensures var w := KeyStep(v, amounts, Tea.Right, height);
      && w.tab == NextTab(v.tab) && w.offsets[ResultTab] == 0
      && (forall t :: 1 <= t < 5 ==> w.offsets[t] == v.offsets[t])
      && KeyStep(w, amounts, Tea.Left, height).tab == v.tab
    ensures KeyStep(v, amounts, Tea.Left, height).tab == PrevTab(v.tab)
  {
    TabRotation(v.tab);
  }

  /** How Update ends: with a command for the runtime, or a panic when the clipboard write fails. */
  datatype UpdateResult = Continue(cmd: Tea.Cmd) | Panicked

  const CopiedMessage: string := "Request response copied"

  /**
   * The clamp and the page of result_viewport_Render: an offset past the
   * last full page moves back to it, then the page from there is shown.
   */
  method ResultPage(offset: nat, lines: seq<string>, maxLines: nat) returns (o: nat, r: string)
    ensures o == Paging.ResultOffset(offset, |lines|, maxLines)
    ensures r == Paging.PagedView(o, lines, maxLines)
  {
    var total := |lines|;
    o := offset;
    if o > total - maxLines {
      o := if 0 < total - maxLines then total - maxLines else 0;
    }
    assert o == Paging.ResultOffset(offset, total, maxLines);
    var end := if o + maxLines < total then o + maxLines else total;
    assert Paging.Window(o, total, maxLines) == (o, end);
    r := Join(lines[o..end], "\n") + Paging.Footer(o, end, total, maxLines);
  }

  class Model {
    const config: Config.Config
    const response: Request.RequestResponse
    const clipboardMessage: TimedMessage.TimedMessage
    var activeTab: Tab
    var offsets: seq<int>
    var amounts: seq<int>

    predicate Valid()
      reads this
    {
      Sound(View(activeTab, offsets), amounts)
    }

    /** initialModel: the response tab, every offset and line count 0, the copy message hidden. */
    constructor (res: Request.RequestResponse, cfg: Config.Config)
      ensures Valid()
      ensures response == res && config == cfg
      ensures activeTab == ResultTab && offsets == [0, 0, 0, 0, 0] && amounts == [0, 0, 0, 0, 0]
      ensures fresh(clipboardMessage) && !clipboardMessage.visible && clipboardMessage.message == ""
    {
      config := cfg;
      response := res;
      activeTab := ResultTab;
      offsets := [0, 0, 0, 0, 0];
      amounts := [0, 0, 0, 0, 0];
      clipboardMessage := new TimedMessage.TimedMessage();
    }

    /** tab_MoveLeft */
    method MoveLeft()
      requires Valid()
      modifies this
      ensures Valid()
      ensures activeTab == PrevTab(old(activeTab))
      ensures offsets == old(offsets)[ResultTab := 0] && amounts == old(amounts)
    {
      activeTab := PrevTab(activeTab);
      offsets := offsets[ResultTab := 0];
    }

    /** tab_MoveRight */
    method MoveRight()
      requires Valid()
      modifies this
      ensures Valid()
      ensures activeTab == NextTab(old(activeTab))
      ensures offsets == old(offsets)[ResultTab := 0] && amounts == old(amounts)
    {
      activeTab := NextTab(activeTab);
      offsets := offsets[ResultTab := 0];
    }

    /** The ScrollUp, ScrollDown, ScrollPgUp and ScrollPgDown functions of the active tab. */
    method Scroll(key: Tea.Key, height: int)
      requires Valid() && IsScrollKey(key)
      modifies this
      ensures Valid()
      ensures activeTab == old(activeTab) && amounts == old(amounts)
      ensures offsets == old(offsets)[activeTab := Scrolled(key, activeTab, old(offsets)[activeTab], amounts[activeTab], height)]
    {
      var o := offsets[activeTab];
      var n := amounts[activeTab];
      var maxLines := Paging.MaxLines(height);
      var next := o;
      if key == Tea.Up {
        if o > 0 {
          next := o - 1;
        }
      } else if key == Tea.Down {
        if activeTab == ResultTab {
          if n == 0 {
          } else if o >= n {
            next := n - 1;
          } else {
            next := o + 1;
          }
        } else if n == 0 || n <= maxLines || o + maxLines >= n {
        } else {
          next := o + 1;
        }
      } else if key == Tea.PgUp {
        next := o - 5;
        if next < 0 {
          next := 0;
        }
      } else if !(n == 0 || n <= maxLines) {
        next := o + 5;
      }
      offsets := offsets[activeTab := next];
    }

    /**
     * result_viewport_Render. `formatted` is the response as its content
     * type's formatter and the word wrap make it; an empty response shows
     * the placeholder and changes nothing.
     */
    method RenderResult(formatted: string, height: int) returns (r: string)
      requires Valid() && height >= 16
      modifies this
      ensures Valid()
      ensures activeTab == old(activeTab)
      ensures response.result == "" ==> r == "No response available." && offsets == old(offsets) && amounts == old(amounts)
      ensures response.result != "" ==>
        var lines := Split(formatted, '\n');
        var o := Paging.ResultOffset(old(offsets)[ResultTab], |lines|, Paging.MaxLines(height));
        && offsets == old(offsets)[ResultTab := o]
        && amounts == old(amounts)[ResultTab := |lines|]
        && r == Paging.PagedView(o, lines, Paging.MaxLines(height))
    {
      if response.result == "" {
        return "No response available.";
      }
      var lines := Split(formatted, '\n');
      var o, view := ResultPage(offsets[ResultTab], lines, Paging.MaxLines(height));
      offsets := offsets[ResultTab := o];
      amounts := amounts[ResultTab := |lines|];
      r := view;
    }

    /**
     * The Render_Paged function of tab `t` (request infos, network infos,
     * request headers or response headers) over that tab's text: it
     * records the line count and shows one page of lines.
     */
    method RenderPaged(t: Tab, content: string, height: int) returns (r: string)
      requires Valid() && height >= 16 && t != ResultTab
      modifies this
      ensures Valid()
      ensures activeTab == old(activeTab) && offsets == old(offsets)
      ensures amounts == old(amounts)[t := |Split(content, '\n')|]
      ensures r == Paging.PagedView(offsets[t], Split(content, '\n'), Paging.MaxLines(height))
    {
      var lines := Split(content, '\n');
      amounts := amounts[t := |lines|];
      var maxLines := Paging.MaxLines(height);
      var start := if offsets[t] < |lines| then offsets[t] else |lines|;
      var end := if start + maxLines < |lines| then start + maxLines else |lines|;
      r := Join(lines[start..end], "\n") + Paging.Footer(start, end, |lines|, maxLines);
    }

    /**
     * Model.Update. 'q', Ctrl+C and Esc quit; 'c' copies the response
     * (copyOk says whether the clipboard accepted it) and shows a one-second
     * message; Right and Left switch tabs; the scroll keys scroll the active
     * tab; anything else is ignored.
     */
    method Update(msg: Tea.Msg, height: int, copyOk: bool) returns (r: UpdateResult)
      requires Valid()
      modifies this, clipboardMessage
      ensures Valid()
      ensures amounts == old(amounts)
      ensures msg.KeyMsg? ==> View(activeTab, offsets) == KeyStep(View(old(activeTab), old(offsets)), amounts, msg.key, height)
      ensures !msg.KeyMsg? ==> activeTab == old(activeTab) && offsets == old(offsets) && r == Continue(Tea.NoCmd)
      ensures msg.KeyMsg? && msg.key in {Tea.Runes("q"), Tea.CtrlC, Tea.Esc} ==> r == Continue(Tea.Quit)
      ensures msg.KeyMsg? && msg.key == Tea.Runes("c") && copyOk ==>
        r == Continue(Tea.MessageTimeout) && clipboardMessage.visible && clipboardMessage.message == CopiedMessage
      ensures msg.KeyMsg? && msg.key == Tea.Runes("c") && !copyOk ==> r == Panicked
      ensures msg.KeyMsg? && msg.key !in {Tea.Runes("q"), Tea.CtrlC, Tea.Esc, Tea.Runes("c")} ==> r == Continue(Tea.NoCmd)
      ensures !(msg.KeyMsg? && msg.key == Tea.Runes("c")) ==> unchanged(clipboardMessage)
    {
      r := Continue(Tea.NoCmd);
      if !msg.KeyMsg? {
        return;
      }
      var key := msg.key;
      if key == Tea.Runes("q") || key == Tea.CtrlC || key == Tea.Esc {
        return Continue(Tea.Quit);
      }
      if key == Tea.Runes("c") {
        if !copyOk {
          return Panicked;
        }
        var cmd := clipboardMessage.Show(CopiedMessage, Request.Second);
        return Continue(cmd);
      }
      if key == Tea.Right {
        MoveRight();
      } else if key == Tea.Left {
        MoveLeft();
      } else if IsScrollKey(key) {
        Scroll(key, height);
      }
    }
  }
}
