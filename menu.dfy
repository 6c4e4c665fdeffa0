/** The menu command: prints the names registered in the command handler
    at the moment it runs, in ascending order, between a fixed header and a
    fixed footer. Two copies exist: the one in the `plugins` package prints
    a hint line and a trailing space after each name, the one in the
    `commands` package does neither. */
module MenuCommand {
  import opened Output
  import opened Order

  datatype Style = PluginsMenu | CommandsMenu

  /** The title line and a rule of twenty dashes. */
  const HEADER := "\nAvailable Commands:\n" + "--------------------"
  const HINT := "Type the operation along with 2 integers" + " to perform on separated by space"
  const FOOTER := "\nType 'quit' to exit.\n"

  /** The line printed for one command name. */
  function Item(style: Style, name: string): (r: string)
    ensures |r| == 3 + |name| + (if style == PluginsMenu then 1 else 0)
    ensures r[..3] == " - " && r[3..3 + |name|] == name
    ensures style == PluginsMenu ==> r[|r| - 1] == ' '
  {
    if style == PluginsMenu then " - " + name + " " else " - " + name
  }

  /** The lines printed before the names. */
  function Header(style: Style): seq<Line>
  {
    if style == PluginsMenu then [Text(HEADER), Text(HINT)] else [Text(HEADER)]
  }

  function Items(style: Style, names: seq<string>): seq<Line>
  {
    seq(|names|, i requires 0 <= i < |names| => Text(Item(style, names[i])))
  }

  /** Everything the menu prints for the live set of names. */
  function Listing(style: Style, live: set<string>): (lines: seq<Line>)
    ensures |lines| == |Header(style)| + |live| + 1
  {
    Header(style) + Items(style, SortedKeys(live)) + [Text(FOOTER)]
  }

  /** `MenuCommand.execute(self)` called with `args`: it takes no
      arguments, so any argument is a `TypeError` before anything prints. */
  function Show(style: Style, args: seq<string>, live: set<string>): (o: Outcome)
    ensures o.raised.Some? <==> |args| > 0
    ensures o.raised.Some? ==> o.raised.value.TypeError? && o.printed == []
  {
    if |args| > 0 then Raise(TypeError(TooManyPositional(|args| + 1)))
    else Printed(Listing(style, live))
  }

  /** `MenuCommand.execute`: one line per name of `sorted(live)`, where
      `live` is the handler's key set read when the menu runs. */
  method Execute(style: Style, live: set<string>, args: seq<string>) returns (o: Outcome)
    ensures o == Show(style, args, live)
  {
    if |args| > 0 {
      return Raise(TypeError(TooManyPositional(|args| + 1)));
    }
    var names := SortedKeys(live);
    var out := [Text(HEADER)];
    if style == PluginsMenu {
      out := out + [Text(HINT)];
    }
    assert out == Header(style) + Items(style, names[..0]);
    for i := 0 to |names|
      invariant out == Header(style) + Items(style, names[..i])
    {
      var line := Text(Item(style, names[i]));
      ItemsGrow(style, names, i);
      AppendAfter(Header(style), Items(style, names[..i]), line);
      out := out + [line];
    }
    assert names[..|names|] == names;
    out := out + [Text(FOOTER)];
    o := Printed(out);
  }

  // ----- lemmas -----

  lemma ItemsGrow(style: Style, names: seq<string>, i: nat)
    requires i < |names|
    ensures Items(style, names[..i + 1]) == Items(style, names[..i]) + [Text(Item(style, names[i]))]
  {
  }

  lemma AppendAfter(front: seq<Line>, lines: seq<Line>, line: Line)
    ensures front + lines + [line] == front + (lines + [line])
  {
  }

  lemma ItemInjective(style: Style, a: string, b: string)
    requires Item(style, a) == Item(style, b)
    ensures a == b
  {
    if style == PluginsMenu {
      assert a == Item(style, a)[3..|Item(style, a)| - 1];
    } else {
      assert a == Item(style, a)[3..];
    }
    assert b == Item(style, b)[3..|Item(style, b)| - (if style == PluginsMenu then 1 else 0)];
  }

  /** No header or footer line looks like a name line: they start with a
      newline or a capital letter, a name line with a space. */
  lemma FrameLinesAreNotItems(style: Style, name: string)
    ensures Text(Item(style, name)) !in Header(style)
    ensures Text(Item(style, name)) != Text(FOOTER)
  {
    assert Item(style, name)[0] == ' ';
    assert HEADER[0] == '\n' && HINT[0] == 'T' && FOOTER[0] == '\n';
  }

  /** The shape of the output: the header (and, in the plugins copy, the
      hint) first, one line per registered name, the quit line last. */
  lemma ListingShape(style: Style, live: set<string>)
    ensures var lines := Listing(style, live);
            var h := |Header(style)|;
            && |lines| == h + |live| + 1
            && lines[0] == Text(HEADER)
            && (style == PluginsMenu ==> h == 2 && lines[1] == Text(HINT))
            && (style == CommandsMenu ==> h == 1)
            && lines[|lines| - 1] == Text(FOOTER)
            && forall i :: h <= i < |lines| - 1 ==> lines[i].Text? && lines[i].s[..3] == " - "
  {
  }

  /** A name line sits between header and footer, at the position of its
      name among `names`. */
  lemma ItemLinePosition(style: Style, names: seq<string>, i: int, name: string)
    requires var lines := Header(style) + Items(style, names) + [Text(FOOTER)];
             0 <= i < |lines| && lines[i] == Text(Item(style, name))
    ensures var h := |Header(style)|;
            h <= i < h + |names| && names[i - h] == name
  {
    var h := |Header(style)|;
    var items := Items(style, names);
    var lines := Header(style) + items + [Text(FOOTER)];
    FrameLinesAreNotItems(style, name);
    assert h <= i < |lines| - 1;
    assert lines[i] == items[i - h];
    ItemInjective(style, names[i - h], name);
  }

  lemma ListsLiveName(style: Style, live: set<string>, name: string)
    requires name in live
    ensures Text(Item(style, name)) in Listing(style, live)
  {
    var names := SortedKeys(live);
    var k :| 0 <= k < |names| && names[k] == name;
    var h := |Header(style)|;
    assert Listing(style, live)[h + k] == Items(style, names)[k];
  }

  lemma NameLineAppearsOnce(style: Style, live: set<string>, name: string, i: int, j: int)
    requires var lines := Listing(style, live);
             0 <= i < |lines| && 0 <= j < |lines|
             && lines[i] == Text(Item(style, name)) && lines[j] == Text(Item(style, name))
    ensures i == j && name in live
  {
    var names := SortedKeys(live);
    var h := |Header(style)|;
    assert Listing(style, live) == Header(style) + Items(style, names) + [Text(FOOTER)];
    ItemLinePosition(style, names, i, name);
    ItemLinePosition(style, names, j, name);
    AscendingHasNoDuplicates(names, i - h, j - h);
  }

  /** Every name in the live set is listed exactly once, and no other name
      is listed. */
  lemma ListsEachNameOnce(style: Style, live: set<string>, name: string)
    ensures var lines := Listing(style, live);
            && (name in live <==> Text(Item(style, name)) in lines)
            && forall i, j :: (0 <= i < |lines| && 0 <= j < |lines|
                 && lines[i] == Text(Item(style, name)) && lines[j] == Text(Item(style, name))) ==> i == j
  {
    var lines := Listing(style, live);
    if name in live {
      ListsLiveName(style, live, name);
    }
    if Text(Item(style, name)) in lines {
      var i :| 0 <= i < |lines| && lines[i] == Text(Item(style, name));
      NameLineAppearsOnce(style, live, name, i, i);
    }
    forall i, j | 0 <= i < |lines| && 0 <= j < |lines|
        && lines[i] == Text(Item(style, name)) && lines[j] == Text(Item(style, name))
      ensures i == j
    {
      NameLineAppearsOnce(style, live, name, i, j);
    }
  }

  /** Names are listed in ascending order: a name on an earlier line is
      below the name on a later line. */
  lemma ListsInAscendingOrder(style: Style, live: set<string>, i: int, j: int, a: string, b: string)
    requires var lines := Listing(style, live);
             0 <= i < j < |lines| && lines[i] == Text(Item(style, a)) && lines[j] == Text(Item(style, b))
    ensures Below(a, b)
  {
    var names := SortedKeys(live);
    ItemLinePosition(style, names, i, a);
    ItemLinePosition(style, names, j, b);
    var h := |Header(style)|;
    assert StrictlyAscending(SortedKeys(live));
  }

  /** With no command registered the menu prints only its frame. */
  lemma EmptyMenu(style: Style)
    ensures Listing(style, {}) == Header(style) + [Text(FOOTER)]
    ensures Listing(PluginsMenu, {}) == [Text(HEADER), Text(HINT), Text(FOOTER)]
    ensures Listing(CommandsMenu, {}) == [Text(HEADER), Text(FOOTER)]
  {
    assert SortedKeys({}) == [];
  }
}
