/**
 * The help screen's text: the command list, the categorised flag list and
 * the column widths. Styling, the logo and the surrounding box are left to
 * the caller. A flag set is the list pflag's VisitAll walks (sorted by
 * name).
 */
module HelpCommand {
  import opened Wrappers
  import opened Strings

  datatype Command = Command(use: string, short: string)

  datatype Flag = Flag(name: string, shorthand: string, usage: string)

  /** One entry of CategorizedFlagsOrder with its CategorizedFlags list. */
  datatype Category = Category(title: string, flagNames: seq<string>)

  /** The categories the help screen is configured with. */
  const DefaultCategories: seq<Category> :=
    [Category("Main parameters", ["help"]), Category("Data", ["header", "body"])]

  function Max(a: int, b: int): int { if a > b then a else b }

  /** padRight: `str` followed by spaces up to `length` characters; unchanged when already that long. */
  function PadRight(str: string, length: int): (r: string)
    ensures |r| == Max(|str|, length)
    ensures HasPrefix(r, str)
    ensures forall i :: |str| <= i < |r| ==> r[i] == ' '
    ensures |str| >= length ==> r == str
  {
    if |str| >= length then str else str + Repeat(' ', length - |str|)
  }

  /** Worked examples, the cases of the padding test: short names are filled up, long ones left alone. */
  lemma PadRightExamples()
    ensures PadRight("foo", 6) == "foo   "
    ensures PadRight("foobar", 6) == "foobar" && PadRight("foobar", 3) == "foobar"
  {
    assert Repeat(' ', 3) == "   ";
  }

  /** The commands the help screen never lists. */
  predicate IsSkipped(use: string) {
    use == "completion" || HasPrefix(use, "help")
  }

  function CommandLine(c: Command, maxUseLen: int): string {
    "  " + PadRight(c.use, maxUseLen + 4) + c.short + "\n"
  }

  /** The command list: one line per listed command, in input order. */
  function CommandsText(cmds: seq<Command>, maxUseLen: int): string {
    if cmds == [] then ""
    else
      var c := cmds[|cmds| - 1];
      CommandsText(cmds[..|cmds| - 1], maxUseLen) + (if IsSkipped(c.use) then "" else CommandLine(c, maxUseLen))
  }

  /** The commands that are listed, in input order. */
  function Listed(cmds: seq<Command>): seq<Command> {
    if cmds == [] then []
    else
      var c := cmds[|cmds| - 1];
      Listed(cmds[..|cmds| - 1]) + (if IsSkipped(c.use) then [] else [c])
  }

  function Lines(cmds: seq<Command>, maxUseLen: int): string {
    if cmds == [] then "" else CommandLine(cmds[0], maxUseLen) + Lines(cmds[1..], maxUseLen)
  }

  lemma {:induction false} LinesSnoc(cmds: seq<Command>, c: Command, maxUseLen: int)
    ensures Lines(cmds + [c], maxUseLen) == Lines(cmds, maxUseLen) + CommandLine(c, maxUseLen)
  {
    if cmds == [] {
      assert [] + [c] == [c];
    } else {
      assert (cmds + [c])[1..] == cmds[1..] + [c];
      LinesSnoc(cmds[1..], c, maxUseLen);
    }
  }

  /** The command list is exactly the lines of the listed commands: skipped ones leave no trace. */
  lemma {:induction false} CommandsTextIsListedLines(cmds: seq<Command>, maxUseLen: int)
    ensures CommandsText(cmds, maxUseLen) == Lines(Listed(cmds), maxUseLen)
  {
    if cmds != [] {
      var c := cmds[|cmds| - 1];
      var init := cmds[..|cmds| - 1];
      CommandsTextIsListedLines(init, maxUseLen);
      if !IsSkipped(c.use) {
        assert Listed(cmds) == Listed(init) + [c];
        assert CommandsText(cmds, maxUseLen) == CommandsText(init, maxUseLen) + CommandLine(c, maxUseLen);
        LinesSnoc(Listed(init), c, maxUseLen);
      } else {
        assert Listed(cmds) == Listed(init) + [] == Listed(init);
        assert CommandsText(cmds, maxUseLen) == CommandsText(init, maxUseLen) + "" == CommandsText(init, maxUseLen);
      }
    }
  }

  lemma CommandsTextStep(cmds: seq<Command>, i: nat, maxUseLen: int)
    requires i < |cmds|
    ensures CommandsText(cmds[..i + 1], maxUseLen)
      == CommandsText(cmds[..i], maxUseLen) + (if IsSkipped(cmds[i].use) then "" else CommandLine(cmds[i], maxUseLen))
  {
    assert cmds[..i + 1][..i] == cmds[..i];
  }

  /** The four writes of one command line. */
  method WriteCommandLine(s: string, c: Command, maxUseLen: int) returns (t: string)
    ensures t == s + CommandLine(c, maxUseLen)
  {
    t := s + "  ";
    t := t + PadRight(c.use, maxUseLen + 4);
    t := t + c.short;
    t := t + "\n";
  }

  /** renderCommands */
  method RenderCommands(cmds: seq<Command>, maxUseLen: int) returns (s: string)
    ensures s == CommandsText(cmds, maxUseLen)
  {
    s := "";
    for i := 0 to |cmds|
      invariant s == CommandsText(cmds[..i], maxUseLen)
    {
      CommandsTextStep(cmds, i, maxUseLen);
      if cmds[i].use == "completion" || HasPrefix(cmds[i].use, "help") {
        continue;
      }
      s := WriteCommandLine(s, cmds[i], maxUseLen);
    }
    assert cmds[..|cmds|] == cmds;
  }

  /** The width of the command column: the longest listed command name, 0 if none. */
  function MaxUseLen(cmds: seq<Command>): (r: nat) {
    if cmds == [] then 0
    else
      var c := cmds[|cmds| - 1];
      var rest := MaxUseLen(cmds[..|cmds| - 1]);
      if !IsSkipped(c.use) && |c.use| > rest then |c.use| else rest
  }

  /** MaxUseLen bounds every listed name and is attained by one of them; skipped names play no part. */
  lemma {:induction false} MaxUseLenIsMaximum(cmds: seq<Command>)
    ensures forall c :: c in cmds && !IsSkipped(c.use) ==> |c.use| <= MaxUseLen(cmds)
    ensures MaxUseLen(cmds) == 0 || exists c :: c in cmds && !IsSkipped(c.use) && |c.use| == MaxUseLen(cmds)
  {
    if cmds != [] {
      var init := cmds[..|cmds| - 1];
      MaxUseLenIsMaximum(init);
      assert cmds == init + [cmds[|cmds| - 1]];
      if MaxUseLen(cmds) == MaxUseLen(init) && MaxUseLen(init) != 0 {
        var c :| c in init && !IsSkipped(c.use) && |c.use| == MaxUseLen(init);
        assert c in cmds;
      }
    }
  }

  /** The maxUseLen loop of the help function. */
  method ComputeMaxUseLen(cmds: seq<Command>) returns (maxUseLen: nat)
    ensures maxUseLen == MaxUseLen(cmds)
  {
    maxUseLen := 0;
    for i := 0 to |cmds|
      invariant maxUseLen == MaxUseLen(cmds[..i])
    {
      assert cmds[..i + 1][..i] == cmds[..i];
      if cmds[i].use == "completion" || HasPrefix(cmds[i].use, "help") {
        continue;
      }
      if |cmds[i].use| > maxUseLen {
        maxUseLen := |cmds[i].use|;
      }
    }
    assert cmds[..|cmds|] == cmds;
  }

  /** The longest name in a list. */
  function MaxNameLen(names: seq<string>): (r: nat) {
    if names == [] then 0
    else
      var rest := MaxNameLen(names[..|names| - 1]);
      if |names[|names| - 1]| > rest then |names[|names| - 1]| else rest
  }

  /** The width of the flag column: the longest flag name listed in any category. */
  function MaxFlagNameLen(cats: seq<Category>): (r: nat) {
    if cats == [] then 0 else Max(MaxFlagNameLen(cats[..|cats| - 1]), MaxNameLen(cats[|cats| - 1].flagNames))
  }

  lemma {:induction false} MaxNameLenBounds(names: seq<string>)
    ensures forall k :: 0 <= k < |names| ==> |names[k]| <= MaxNameLen(names)
  {
    if names != [] {
      var init := names[..|names| - 1];
      MaxNameLenBounds(init);
      forall k | 0 <= k < |names| ensures |names[k]| <= MaxNameLen(names) {
        if k < |names| - 1 { assert names[k] == init[k]; }
      }
    }
  }

  /** Every categorised flag name fits in the flag column. */
  lemma {:induction false} MaxFlagNameLenBounds(cats: seq<Category>)
    ensures forall i, k :: 0 <= i < |cats| && 0 <= k < |cats[i].flagNames| ==> |cats[i].flagNames[k]| <= MaxFlagNameLen(cats)
  {
    if cats != [] {
      var init := cats[..|cats| - 1];
      MaxFlagNameLenBounds(init);
      MaxNameLenBounds(cats[|cats| - 1].flagNames);
      forall i, k | 0 <= i < |cats| && 0 <= k < |cats[i].flagNames|
        ensures |cats[i].flagNames[k]| <= MaxFlagNameLen(cats)
      {
        if i < |cats| - 1 { assert cats[i] == init[i]; }
      }
    }
  }

  /** The maxFlagNameLen loops of the help function. */
  method ComputeMaxFlagNameLen(cats: seq<Category>) returns (maxFlagNameLen: nat)
    ensures maxFlagNameLen == MaxFlagNameLen(cats)
  {
    maxFlagNameLen := 0;
    for i := 0 to |cats|
      invariant maxFlagNameLen == MaxFlagNameLen(cats[..i])
    {
      assert cats[..i + 1][..i] == cats[..i];
      var names := cats[i].flagNames;
      ghost var before := maxFlagNameLen;
      for j := 0 to |names|
        invariant maxFlagNameLen == Max(before, MaxNameLen(names[..j]))
      {
        assert names[..j + 1][..j] == names[..j];
        if |names[j]| > maxFlagNameLen {
          maxFlagNameLen := |names[j]|;
        }
      }
      assert names[..|names|] == names;
    }
    assert cats[..|cats|] == cats;
  }

  /** cmd.Flags().Lookup: the flag with that name, if any. */
  function Lookup(flags: seq<Flag>, name: string): (r: Option<Flag>)
    ensures r.Some? <==> exists k :: 0 <= k < |flags| && flags[k].name == name
    ensures r.Some? ==> r.value in flags && r.value.name == name
  {
    if flags == [] then None else if flags[0].name == name then Some(flags[0]) else Lookup(flags[1..], name)
  }

  predicate HasFlag(flags: seq<Flag>, name: string) {
    Lookup(flags, name).Some?
  }

  predicate HasAnyFlag(flags: seq<Flag>, names: seq<string>) {
    exists k :: 0 <= k < |names| && HasFlag(flags, names[k])
  }

  /** One flag line; the name column is padded to maxFlagNameLen + 4. */
  function FlagLine(f: Flag, maxFlagNameLen: int): string {
    var pad := PadRight("", maxFlagNameLen - |f.name| + 4);
    if f.shorthand != "" then "  --" + f.name + ", -" + f.shorthand + pad + f.usage + "\n"
    else "  --" + f.name + "    " + pad + f.usage + "\n"
  }

  /** The lines of the named flags; None (a nil-flag panic) when one of them does not exist. */
  function NamedLines(flags: seq<Flag>, names: seq<string>, maxFlagNameLen: int): Option<string> {
    if names == [] then Some("")
    else
      match NamedLines(flags, names[..|names| - 1], maxFlagNameLen)
      case None => None
      case Some(s) =>
        match Lookup(flags, names[|names| - 1])
        case None => None
        case Some(f) => Some(s + FlagLine(f, maxFlagNameLen))
  }

  /** A category's block: nothing when none of its flags exists, else its title and lines. */
  function CategoryBlock(flags: seq<Flag>, cat: Category, notLast: bool, maxFlagNameLen: int): Option<string> {
    if !HasAnyFlag(flags, cat.flagNames) then Some("")
    else
      match NamedLines(flags, cat.flagNames, maxFlagNameLen)
      case None => None
      case Some(lines) => Some(cat.title + "\n\n" + lines + (if notLast then "\n" else ""))
  }

  /** The blocks of the first `k` categories. */
  function CategoriesText(flags: seq<Flag>, cats: seq<Category>, k: nat, maxFlagNameLen: int): Option<string>
    requires k <= |cats|
  {
    if k == 0 then Some("")
    else
      match CategoriesText(flags, cats, k - 1, maxFlagNameLen)
      case None => None
      case Some(s) =>
        match CategoryBlock(flags, cats[k - 1], k - 1 < |cats| - 1, maxFlagNameLen)
        case None => None
        case Some(block) => Some(s + block)
  }

  /** The names marked shown by the first `k` categories: all names of each category that has a flag. */
  function ShownNames(flags: seq<Flag>, cats: seq<Category>, k: nat): set<string>
    requires k <= |cats|
  {
    if k == 0 then {}
    else
      ShownNames(flags, cats, k - 1)
      + (if HasAnyFlag(flags, cats[k - 1].flagNames) then NameSet(cats[k - 1].flagNames) else {})
  }

  function NameSet(names: seq<string>): set<string> {
    if names == [] then {} else NameSet(names[..|names| - 1]) + {names[|names| - 1]}
  }

  /** The names of the flags in no shown category, in VisitAll order. */
  function Uncategorized(flags: seq<Flag>, shown: set<string>): (r: seq<string>)
    ensures forall n :: n in r ==> n !in shown
  {
    if flags == [] then []
    else
      var f := flags[|flags| - 1];
      Uncategorized(flags[..|flags| - 1], shown) + (if f.name in shown then [] else [f.name])
  }

  /** The lines of the uncategorised names; each was taken from the flag set, so Lookup finds it. */
  function UncategorizedLines(flags: seq<Flag>, names: seq<string>, maxFlagNameLen: int): string {
    if names == [] then ""
    else
      UncategorizedLines(flags, names[..|names| - 1], maxFlagNameLen)
      + match Lookup(flags, names[|names| - 1])
        case Some(f) => FlagLine(f, maxFlagNameLen)
        case None => ""
  }

  function UncategorizedSection(flags: seq<Flag>, uncategorized: seq<string>, maxFlagNameLen: int): string {
    if |uncategorized| > 0 then "Available parameters\n\n" + UncategorizedLines(flags, uncategorized, maxFlagNameLen)
    else ""
  }

  /** renderFlags' result; None is the nil-flag panic. */
  function FlagsText(flags: seq<Flag>, cats: seq<Category>, maxFlagNameLen: int): Option<string> {
    match CategoriesText(flags, cats, |cats|, maxFlagNameLen)
    case None => None
    case Some(s) =>
      var un := Uncategorized(flags, ShownNames(flags, cats, |cats|));
      Some(s + UncategorizedSection(flags, un, maxFlagNameLen))
  }

  /** A category header appears exactly when one of its flags exists. */
  lemma CategoryHeaderIffFlag(flags: seq<Flag>, cat: Category, notLast: bool, maxFlagNameLen: int)
    requires CategoryBlock(flags, cat, notLast, maxFlagNameLen).Some?
    ensures var block := CategoryBlock(flags, cat, notLast, maxFlagNameLen).value;
      && (!HasAnyFlag(flags, cat.flagNames) <==> block == "")
      && (HasAnyFlag(flags, cat.flagNames) ==> HasPrefix(block, cat.title + "\n\n"))
  {
    if HasAnyFlag(flags, cat.flagNames) {
      var block := CategoryBlock(flags, cat, notLast, maxFlagNameLen).value;
      var lines := NamedLines(flags, cat.flagNames, maxFlagNameLen).value;
      var rest := lines + (if notLast then "\n" else "");
      assert block == (cat.title + "\n\n") + rest;
      assert |block| >= 2;
    }
  }

  /** There are uncategorised flags exactly when some flag's name is not shown. */
  lemma {:induction false} UncategorizedNonEmpty(flags: seq<Flag>, shown: set<string>)
    ensures |Uncategorized(flags, shown)| > 0 <==> exists k :: 0 <= k < |flags| && flags[k].name !in shown
  {
    if flags != [] {
      var init := flags[..|flags| - 1];
      UncategorizedNonEmpty(init, shown);
      if exists k :: 0 <= k < |flags| && flags[k].name !in shown {
        var k :| 0 <= k < |flags| && flags[k].name !in shown;
        if k < |flags| - 1 { assert init[k] == flags[k]; }
      }
      if exists k :: 0 <= k < |init| && init[k].name !in shown {
        var k :| 0 <= k < |init| && init[k].name !in shown;
        assert flags[k] == init[k];
      }
    }
  }

  /** The "Available parameters" section is present exactly when some flag is in no shown category. */
  lemma AvailableParametersIff(flags: seq<Flag>, cats: seq<Category>, maxFlagNameLen: int)
    requires FlagsText(flags, cats, maxFlagNameLen).Some?
    ensures var shown := ShownNames(flags, cats, |cats|);
      var section := UncategorizedSection(flags, Uncategorized(flags, shown), maxFlagNameLen);
      && FlagsText(flags, cats, maxFlagNameLen).value == CategoriesText(flags, cats, |cats|, maxFlagNameLen).value + section
      && (HasPrefix(section, "Available parameters\n\n") <==> exists k :: 0 <= k < |flags| && flags[k].name !in shown)
      && (section == "" <==> forall k :: 0 <= k < |flags| ==> flags[k].name in shown)
  {
    var shown := ShownNames(flags, cats, |cats|);
    UncategorizedNonEmpty(flags, shown);
  }

  lemma {:induction false} NoFlagsCategories(cats: seq<Category>, k: nat, maxFlagNameLen: int)
    requires k <= |cats|
    ensures CategoriesText([], cats, k, maxFlagNameLen) == Some("")
    ensures ShownNames([], cats, k) == {}
  {
    if k > 0 {
      NoFlagsCategories(cats, k - 1, maxFlagNameLen);
      assert !HasAnyFlag([], cats[k - 1].flagNames);
      assert CategoryBlock([], cats[k - 1], k - 1 < |cats| - 1, maxFlagNameLen) == Some("");
      assert CategoriesText([], cats, k, maxFlagNameLen) == Some("" + "");
      assert "" + "" == "";
    }
  }

  /** A command without flags renders no flag text at all. */
  lemma NoFlagsRenderEmpty(cats: seq<Category>, maxFlagNameLen: int)
    ensures FlagsText([], cats, maxFlagNameLen) == Some("")
  {
    NoFlagsCategories(cats, |cats|, maxFlagNameLen);
    assert Uncategorized([], {}) == [];
    assert "" + "" == "";
  }

  /** The hasAny scan: whether some name of the category is a flag. */
  method HasAnyScan(flags: seq<Flag>, names: seq<string>) returns (hasAny: bool)
    ensures hasAny == HasAnyFlag(flags, names)
  {
    hasAny := false;
    var j := 0;
    while j < |names|
      invariant 0 <= j <= |names|
      invariant !hasAny
      invariant forall t :: 0 <= t < j ==> !HasFlag(flags, names[t])
    {
      if Lookup(flags, names[j]).Some? {
        hasAny := true;
        return;
      }
      j := j + 1;
    }
  }

  /** The flag lines of a shown category, marking each name shown; None at a missing flag. */
  method CategoryLines(flags: seq<Flag>, names: seq<string>, maxFlagNameLen: int, shownIn: set<string>)
    returns (lines: Option<string>, shown: set<string>)
    ensures lines == NamedLines(flags, names, maxFlagNameLen)
    ensures lines.Some? ==> shown == shownIn + NameSet(names)
  {
    var b := "";
    shown := shownIn;
    for j := 0 to |names|
      invariant NamedLines(flags, names[..j], maxFlagNameLen) == Some(b)
      invariant shown == shownIn + NameSet(names[..j])
    {
      assert names[..j + 1][..j] == names[..j];
      var flag := Lookup(flags, names[j]);
      shown := shown + {names[j]};
      if flag.None? {
        NamedLinesNone(flags, names, j + 1, maxFlagNameLen);
        return None, shown;
      }
      b := b + FlagLine(flag.value, maxFlagNameLen);
    }
    assert names[..|names|] == names;
    lines := Some(b);
  }

  /** The VisitAll pass collecting the names not shown. */
  method CollectUncategorized(flags: seq<Flag>, shown: set<string>) returns (uncategorized: seq<string>)
    ensures uncategorized == Uncategorized(flags, shown)
  {
    uncategorized := [];
    for k := 0 to |flags|
      invariant uncategorized == Uncategorized(flags[..k], shown)
    {
      assert flags[..k + 1][..k] == flags[..k];
      if flags[k].name !in shown {
        uncategorized := uncategorized + [flags[k].name];
      }
    }
    assert flags[..|flags|] == flags;
  }

  /** The lines of the uncategorised flags. */
  method RenderUncategorized(flags: seq<Flag>, uncategorized: seq<string>, maxFlagNameLen: int) returns (b: string)
    ensures b == UncategorizedLines(flags, uncategorized, maxFlagNameLen)
  {
    b := "";
    for k := 0 to |uncategorized|
      invariant b == UncategorizedLines(flags, uncategorized[..k], maxFlagNameLen)
    {
      assert uncategorized[..k + 1][..k] == uncategorized[..k];
      var flag := Lookup(flags, uncategorized[k]);
      if flag.Some? {
        b := b + FlagLine(flag.value, maxFlagNameLen);
      }
    }
    assert uncategorized[..|uncategorized|] == uncategorized;
  }

  /** One pass of the category loop: the category's block and the names it marks shown. */
  method RenderCategory(flags: seq<Flag>, cat: Category, notLast: bool, maxFlagNameLen: int, shownIn: set<string>)
    returns (block: Option<string>, shown: set<string>)
    ensures block == CategoryBlock(flags, cat, notLast, maxFlagNameLen)
    ensures block.Some? ==> shown == shownIn + (if HasAnyFlag(flags, cat.flagNames) then NameSet(cat.flagNames) else {})
  {
    var hasAny := HasAnyScan(flags, cat.flagNames);
    if !hasAny {
      return Some(""), shownIn;
    }
    var lines;
    lines, shown := CategoryLines(flags, cat.flagNames, maxFlagNameLen, shownIn);
    if lines.None? {
      return None, shown;
    }
    var b := cat.title + "\n\n" + lines.value;
    if notLast {
      b := b + "\n";
    } else {
      assert b + "" == b;
    }
    block := Some(b);
  }

  /** renderFlags: returns None where the source dereferences a missing flag. */
  method RenderFlags(flags: seq<Flag>, cats: seq<Category>, maxFlagNameLen: int) returns (r: Option<string>)
    ensures r == FlagsText(flags, cats, maxFlagNameLen)
  {
    var b := "";
    var shown: set<string> := {};
    for i := 0 to |cats|
      invariant CategoriesText(flags, cats, i, maxFlagNameLen) == Some(b)
      invariant shown == ShownNames(flags, cats, i)
    {
      var block;
      block, shown := RenderCategory(flags, cats[i], i < |cats| - 1, maxFlagNameLen, shown);
      if block.None? {
        CategoriesTextNone(flags, cats, i, maxFlagNameLen, |cats|);
        return None;
      }
      b := b + block.value;
    }
    var uncategorized := CollectUncategorized(flags, shown);
    if |uncategorized| > 0 {
      var rest := RenderUncategorized(flags, uncategorized, maxFlagNameLen);
      b := b + ("Available parameters\n\n" + rest);
    } else {
      assert b + "" == b;
    }
    r := Some(b);
  }

  /** Once one named flag is missing, the category's lines are the panic. */
  lemma {:induction false} NamedLinesNone(flags: seq<Flag>, names: seq<string>, j: nat, maxFlagNameLen: int)
    requires 0 < j <= |names| && Lookup(flags, names[j - 1]).None?
    ensures NamedLines(flags, names, maxFlagNameLen).None?
    decreases |names| - j
  {
    if j == |names| {
      if NamedLines(flags, names[..j - 1], maxFlagNameLen).Some? {
        assert names[|names| - 1] == names[j - 1];
      }
    } else {
      NamedLinesNone(flags, names[..|names| - 1], j, maxFlagNameLen);
    }
  }

  /** A panic in category `i` is the panic of the whole rendering. */
  lemma {:induction false} CategoriesTextNone(flags: seq<Flag>, cats: seq<Category>, i: nat, maxFlagNameLen: int, k: nat)
    requires i < k <= |cats|
    requires CategoryBlock(flags, cats[i], i < |cats| - 1, maxFlagNameLen).None?
    ensures CategoriesText(flags, cats, k, maxFlagNameLen).None?
  {
    if k - 1 > i {
      CategoriesTextNone(flags, cats, i, maxFlagNameLen, k - 1);
    }
  }

  const Title := "Httpzen CLI Tool for API Management and Development"

  /**
   * The text of the help function before styling: the logo (a parameter:
   * its ASCII art is drawn elsewhere) and the title, usage, the command list
   * under "Main Commands" when there are commands, a blank line, then the
   * flag list with the column widths computed as above.
   */
  method HelpText(logo: string, cmds: seq<Command>, flags: seq<Flag>, cats: seq<Category>) returns (r: Option<string>)
    ensures var flagsText := FlagsText(flags, cats, MaxFlagNameLen(cats));
      && (flagsText.None? <==> r.None?)
      && (r.Some? ==>
            r.value == logo + "\n" + Title + "\n\n" + "Usage\n  $ httpzen [METHOD] [URL] [PARAMETERS ...]"
            + (if |cmds| > 0 then "\n\nMain Commands\n\n" else "")
            + CommandsText(cmds, MaxUseLen(cmds)) + "\n" + flagsText.value)
  {
    var b := logo + "\n";
    b := b + Title + "\n\n";
    b := b + "Usage\n  $ httpzen [METHOD] [URL] [PARAMETERS ...]";
    if |cmds| > 0 {
      b := b + "\n\nMain Commands\n\n";
    }
    var maxUseLen := ComputeMaxUseLen(cmds);
    var commands := RenderCommands(cmds, maxUseLen);
    b := b + commands + "\n";
    var maxFlagNameLen := ComputeMaxFlagNameLen(cats);
    var flagsText := RenderFlags(flags, cats, maxFlagNameLen);
    if flagsText.None? {
      return None;
    }
    r := Some(b + flagsText.value);
  }
}
