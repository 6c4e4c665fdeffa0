/** The decisions `Calculator.load_plugins` takes for each command class it
    finds: which constructor call to make, under which name to register the
    instance, and what to do when construction fails. Module discovery and
    reflection are replaced by a given sequence of module descriptors, each
    listing the `Command` subclasses found in that module in `dir()` order. */
module Loader {
  import opened Output
  import opened Commands
  import MenuCommand

  /** Which command class a descriptor stands for. */
  datatype Kind =
    | AddClass
    | SubtractClass
    | MultiplyClass
    | DivideClass
    | MenuClass(style: MenuCommand.Style)
    | WelcomeClass
    | QuitClass

  /** One `Command` subclass found in a plugin module: its attribute name,
      the `command_name` attribute its instances carry, if any, and the
      exception its constructor body raises, if any. */
  datatype ClassDesc = ClassDesc(attrName: string, kind: Kind, commandName: Option<string>,
                                 ctorError: Option<Exc>)

  datatype ModuleDesc = ModuleDesc(moduleName: string, classes: seq<ClassDesc>)

  /** Whether the class's `__init__` has a parameter named `command_handler`:
      only the menu's does. */
  predicate DeclaresHandler(k: Kind)
  {
    k.MenuClass?
  }

  datatype Built = Instance(cmd: Cmd) | Failed(err: Exc)

  /** A constructor that takes no argument besides `self`. */
  function NoArgumentConstructor(handlerArg: Option<CommandHandler>, c: Cmd): Built
  {
    if handlerArg.Some? then Failed(TypeError(TakesNoArguments)) else Instance(c)
  }

  /** Calling the class with the given positional argument (or with none):
      a call that does not fit the constructor's signature is a `TypeError`. */
  function Instantiate(k: Kind, handlerArg: Option<CommandHandler>): (b: Built)
    ensures b.Failed? <==> (DeclaresHandler(k) <==> handlerArg.None?)
    ensures b.Failed? ==> b.err.TypeError?
  {
    match k
    case MenuClass(style) =>
      if handlerArg.Some? then Instance(Menu(style, handlerArg.value))
      else Failed(TypeError(MissingHandlerArgument))
    case AddClass => NoArgumentConstructor(handlerArg, Add)
    case SubtractClass => NoArgumentConstructor(handlerArg, Subtract)
    case MultiplyClass => NoArgumentConstructor(handlerArg, Multiply)
    case DivideClass => NoArgumentConstructor(handlerArg, Divide)
    case WelcomeClass => NoArgumentConstructor(handlerArg, Welcome)
    case QuitClass => NoArgumentConstructor(handlerArg, Quit)
  }

  /** The loader's constructor call: with the calculator's handler when the
      signature asks for `command_handler`, with no argument otherwise. */
  function Construct(d: ClassDesc, h: CommandHandler): (b: Built)
    ensures b.Instance? && b.cmd.Menu? ==> b.cmd.commandHandler == h
    ensures d.ctorError.Some? ==> b == Failed(d.ctorError.value)
    ensures d.ctorError.None? ==> b.Instance?
    ensures d.ctorError.None? && d.kind.MenuClass? ==> b == Instance(Menu(d.kind.style, h))
    ensures d.ctorError.None? && d.kind.AddClass? ==> b == Instance(Add)
    ensures d.ctorError.None? && d.kind.SubtractClass? ==> b == Instance(Subtract)
    ensures d.ctorError.None? && d.kind.MultiplyClass? ==> b == Instance(Multiply)
    ensures d.ctorError.None? && d.kind.DivideClass? ==> b == Instance(Divide)
    ensures d.ctorError.None? && d.kind.WelcomeClass? ==> b == Instance(Welcome)
    ensures d.ctorError.None? && d.kind.QuitClass? ==> b == Instance(Quit)
  {
    if d.ctorError.Some? then Failed(d.ctorError.value)
    else Instantiate(d.kind, if DeclaresHandler(d.kind) then Some(h) else None)
  }

  /** `module_name.split(".")[-1]` */
  function LastSegment(s: string): (r: string)
    ensures '.' !in r
    ensures |r| <= |s| && r == s[|s| - |r|..]
    ensures |r| == |s| || s[|s| - |r| - 1] == '.'
  {
    if |s| == 0 || s[|s| - 1] == '.' then "" else LastSegment(s[..|s| - 1]) + [s[|s| - 1]]
  }

  /** `getattr(instance, 'command_name', module_name.split(".")[-1])` */
  function RegisteredName(d: ClassDesc, moduleName: string): (n: string)
    ensures d.commandName.Some? ==> n == d.commandName.value
    ensures d.commandName.None? ==> '.' !in n && |n| <= |moduleName| && n == moduleName[|moduleName| - |n|..]
    ensures d.commandName.None? ==> |n| == |moduleName| || moduleName[|moduleName| - |n| - 1] == '.'
  {
    if d.commandName.Some? then d.commandName.value else LastSegment(moduleName)
  }

  /** The state of a load in progress: the handler's table, the lines
      printed so far, and the exception that stopped it, if any. */
  datatype LoadState = LoadState(table: map<string, Cmd>, log: seq<Line>, failure: Option<Exc>)

  /** One class: build and register it; a `TypeError` is reported and
      skipped; any other exception stops the load. */
  function LoadClass(st: LoadState, moduleName: string, d: ClassDesc, h: CommandHandler): (r: LoadState)
    ensures r.failure != st.failure ==> d.ctorError.Some? && !d.ctorError.value.TypeError? && r.failure == d.ctorError
    ensures r.failure.Some? && r.failure != st.failure ==> r.table == st.table && r.log == st.log
  {
    match Construct(d, h)
    case Instance(c) => st.(table := st.table[RegisteredName(d, moduleName) := c])
    case Failed(e) =>
      if e.TypeError? then st.(log := st.log + [Skipped(d.attrName, e)])
      else st.(failure := Some(e))
  }

  /** The inner loop over the classes of one module. */
  function LoadClasses(st: LoadState, moduleName: string, classes: seq<ClassDesc>, h: CommandHandler): (r: LoadState)
    ensures st.failure.Some? ==> r == st
    decreases |classes|
  {
    if |classes| == 0 || st.failure.Some? then st
    else LoadClasses(LoadClass(st, moduleName, classes[0], h), moduleName, classes[1..], h)
  }

  /** The outer loop over the plugin modules. */
  function LoadModules(st: LoadState, modules: seq<ModuleDesc>, h: CommandHandler): (r: LoadState)
    ensures st.failure.Some? ==> r == st
    decreases |modules|
  {
    if |modules| == 0 || st.failure.Some? then st
    else LoadModules(LoadClasses(st, modules[0].moduleName, modules[0].classes, h), modules[1..], h)
  }

  /** Every menu in the table holds a reference to handler `h`. */
  ghost predicate MenusBound(table: map<string, Cmd>, h: CommandHandler)
  {
    forall n :: n in table && table[n].Menu? ==> table[n].commandHandler == h
  }

  /** No constructor raises anything but a `TypeError`. */
  predicate NoFatal(modules: seq<ModuleDesc>)
  {
    forall i, j :: 0 <= i < |modules| && 0 <= j < |modules[i].classes| ==>
      modules[i].classes[j].ctorError.None? || modules[i].classes[j].ctorError.value.TypeError?
  }

  /** The names under which the classes that construct are registered. */
  function BuiltNames(moduleName: string, classes: seq<ClassDesc>): set<string>
  {
    if |classes| == 0 then {}
    else (if classes[0].ctorError.None? then {RegisteredName(classes[0], moduleName)} else {})
         + BuiltNames(moduleName, classes[1..])
  }

  /** The table a run of registrations leaves behind, ignoring the report
      lines: each class that constructs is stored under its name, a later
      one replacing an earlier one of the same name. */
  function BuiltTable(table: map<string, Cmd>, moduleName: string, classes: seq<ClassDesc>, h: CommandHandler): map<string, Cmd>
    decreases |classes|
  {
    if |classes| == 0 then table
    else
      var d := classes[0];
      var next := if d.ctorError.None? then table[RegisteredName(d, moduleName) := Construct(d, h).cmd] else table;
      BuiltTable(next, moduleName, classes[1..], h)
  }

  function AllBuiltTable(table: map<string, Cmd>, modules: seq<ModuleDesc>, h: CommandHandler): map<string, Cmd>
    decreases |modules|
  {
    if |modules| == 0 then table
    else AllBuiltTable(BuiltTable(table, modules[0].moduleName, modules[0].classes, h), modules[1..], h)
  }

  function AllBuiltNames(modules: seq<ModuleDesc>): set<string>
  {
    if |modules| == 0 then {}
    else BuiltNames(modules[0].moduleName, modules[0].classes) + AllBuiltNames(modules[1..])
  }

  /** The report lines of the classes whose constructor fails. */
  function Skips(classes: seq<ClassDesc>): seq<Line>
  {
    if |classes| == 0 then []
    else (if classes[0].ctorError.Some? then [Skipped(classes[0].attrName, classes[0].ctorError.value)] else [])
         + Skips(classes[1..])
  }

  function AllSkips(modules: seq<ModuleDesc>): seq<Line>
  {
    if |modules| == 0 then [] else Skips(modules[0].classes) + AllSkips(modules[1..])
  }

  // ----- lemmas -----

  /** The last segment of a dotted name is the part after its last dot. */
  lemma {:induction false} LastSegmentOfDotted(prefix: string, seg: string)
    requires '.' !in seg
    ensures LastSegment(prefix + "." + seg) == seg
    decreases |seg|
  {
    var s := prefix + "." + seg;
    if |seg| == 0 {
      assert s[|s| - 1] == '.';
    } else {
      assert s[|s| - 1] == seg[|seg| - 1];
      assert s[..|s| - 1] == prefix + "." + seg[..|seg| - 1];
      LastSegmentOfDotted(prefix, seg[..|seg| - 1]);
      assert seg == seg[..|seg| - 1] + [seg[|seg| - 1]];
    }
  }

  /** Loading keeps every menu bound to the calculator's handler. */
  lemma {:induction false} LoadClassesKeepsMenusBound(st: LoadState, m: string, classes: seq<ClassDesc>, h: CommandHandler)
    requires MenusBound(st.table, h)
    ensures MenusBound(LoadClasses(st, m, classes, h).table, h)
    decreases |classes|
  {
    if |classes| > 0 && st.failure.None? {
      LoadClassesKeepsMenusBound(LoadClass(st, m, classes[0], h), m, classes[1..], h);
    }
  }

  lemma {:induction false} LoadKeepsMenusBound(st: LoadState, modules: seq<ModuleDesc>, h: CommandHandler)
    requires MenusBound(st.table, h)
    ensures MenusBound(LoadModules(st, modules, h).table, h)
    decreases |modules|
  {
    if |modules| > 0 && st.failure.None? {
      LoadClassesKeepsMenusBound(st, modules[0].moduleName, modules[0].classes, h);
      LoadKeepsMenusBound(LoadClasses(st, modules[0].moduleName, modules[0].classes, h), modules[1..], h);
    }
  }

  /** One class whose constructor raises at most a `TypeError`. */
  lemma LoadClassSkipsTypeError(st: LoadState, m: string, d: ClassDesc, h: CommandHandler)
    requires st.failure.None?
    requires d.ctorError.None? || d.ctorError.value.TypeError?
    ensures var r := LoadClass(st, m, d, h);
            && r.failure.None?
            && r.table.Keys == st.table.Keys + (if d.ctorError.None? then {RegisteredName(d, m)} else {})
            && r.table == (if d.ctorError.None? then st.table[RegisteredName(d, m) := Construct(d, h).cmd] else st.table)
            && r.log == st.log + (if d.ctorError.Some? then [Skipped(d.attrName, d.ctorError.value)] else [])
  {
  }

  /** Skip and continue, for one module: when no constructor raises anything
      but a `TypeError`, every class is visited, the ones that construct
      are registered, and each failing one prints one report line. */
  lemma {:induction false} LoadClassesSkipsTypeErrors(st: LoadState, m: string, classes: seq<ClassDesc>, h: CommandHandler)
    requires st.failure.None?
    requires forall j :: 0 <= j < |classes| ==> classes[j].ctorError.None? || classes[j].ctorError.value.TypeError?
    ensures var r := LoadClasses(st, m, classes, h);
            && r.failure.None?
            && r.table.Keys == st.table.Keys + BuiltNames(m, classes)
            && r.log == st.log + Skips(classes)
    decreases |classes|
  {
    if |classes| > 0 {
      var d := classes[0];
      assert d.ctorError.None? || d.ctorError.value.TypeError?;
      var st' := LoadClass(st, m, d, h);
      var skip := if d.ctorError.Some? then [Skipped(d.attrName, d.ctorError.value)] else [];
      LoadClassSkipsTypeError(st, m, d, h);
      LoadClassesSkipsTypeErrors(st', m, classes[1..], h);
      assert Skips(classes) == skip + Skips(classes[1..]);
      assert st.log + Skips(classes) == (st.log + skip) + Skips(classes[1..]);
    } else {
      assert st.log + [] == st.log;
    }
  }

  /** The table one module leaves behind, under the same condition: every
      class that constructs is stored under its registered name, the last
      one of a name winning. */
  lemma {:induction false} LoadClassesBuildsTable(st: LoadState, m: string, classes: seq<ClassDesc>, h: CommandHandler)
    requires st.failure.None?
    requires forall j :: 0 <= j < |classes| ==> classes[j].ctorError.None? || classes[j].ctorError.value.TypeError?
    ensures var r := LoadClasses(st, m, classes, h);
            r.failure.None? && r.table == BuiltTable(st.table, m, classes, h)
    decreases |classes|
  {
    if |classes| > 0 {
      var d := classes[0];
      assert d.ctorError.None? || d.ctorError.value.TypeError?;
      LoadClassSkipsTypeError(st, m, d, h);
      LoadClassesBuildsTable(LoadClass(st, m, d, h), m, classes[1..], h);
    }
  }

  /** A name no constructing class registers keeps its old entry, or stays
      absent. */
  lemma {:induction false} UnbuiltNameKeepsEntry(table: map<string, Cmd>, m: string, classes: seq<ClassDesc>,
                                                 h: CommandHandler, n: string)
    requires forall k :: 0 <= k < |classes| && classes[k].ctorError.None? ==> RegisteredName(classes[k], m) != n
    ensures n in BuiltTable(table, m, classes, h) <==> n in table
    ensures n in table ==> BuiltTable(table, m, classes, h)[n] == table[n]
    decreases |classes|
  {
    if |classes| > 0 {
      var d := classes[0];
      assert 0 <= 0 < |classes|;
      var next := if d.ctorError.None? then table[RegisteredName(d, m) := Construct(d, h).cmd] else table;
      forall k | 0 <= k < |classes[1..]| && classes[1..][k].ctorError.None?
        ensures RegisteredName(classes[1..][k], m) != n
      {
        assert classes[1..][k] == classes[k + 1];
      }
      UnbuiltNameKeepsEntry(next, m, classes[1..], h, n);
    }
  }

  /** The last writer wins: a name ends up holding the instance of the last
      constructing class registered under it. */
  lemma {:induction false} LastBuiltWins(table: map<string, Cmd>, m: string, classes: seq<ClassDesc>,
                                         h: CommandHandler, j: nat)
    requires j < |classes| && classes[j].ctorError.None?
    requires forall k :: j < k < |classes| && classes[k].ctorError.None? ==>
               RegisteredName(classes[k], m) != RegisteredName(classes[j], m)
    ensures RegisteredName(classes[j], m) in BuiltTable(table, m, classes, h)
    ensures BuiltTable(table, m, classes, h)[RegisteredName(classes[j], m)] == Construct(classes[j], h).cmd
    decreases |classes|
  {
    var d := classes[0];
    var next := if d.ctorError.None? then table[RegisteredName(d, m) := Construct(d, h).cmd] else table;
    if j == 0 {
      forall k | 0 <= k < |classes[1..]| && classes[1..][k].ctorError.None?
        ensures RegisteredName(classes[1..][k], m) != RegisteredName(d, m)
      {
        assert classes[1..][k] == classes[k + 1];
      }
      UnbuiltNameKeepsEntry(next, m, classes[1..], h, RegisteredName(d, m));
    } else {
      assert classes[1..][j - 1] == classes[j];
      forall k | j - 1 < k < |classes[1..]| && classes[1..][k].ctorError.None?
        ensures RegisteredName(classes[1..][k], m) != RegisteredName(classes[j], m)
      {
        assert classes[1..][k] == classes[k + 1];
      }
      LastBuiltWins(next, m, classes[1..], h, j - 1);
    }
  }

  /** Across modules: a name no constructing class of any module registers
      keeps its old entry, or stays absent. */
  lemma {:induction false} AllUnbuiltNameKeepsEntry(table: map<string, Cmd>, modules: seq<ModuleDesc>,
                                                    h: CommandHandler, n: string)
    requires forall i, k :: 0 <= i < |modules| && 0 <= k < |modules[i].classes| && modules[i].classes[k].ctorError.None?
               ==> RegisteredName(modules[i].classes[k], modules[i].moduleName) != n
    ensures n in AllBuiltTable(table, modules, h) <==> n in table
    ensures n in table ==> AllBuiltTable(table, modules, h)[n] == table[n]
    decreases |modules|
  {
    if |modules| > 0 {
      var m := modules[0];
      forall k | 0 <= k < |m.classes| && m.classes[k].ctorError.None?
        ensures RegisteredName(m.classes[k], m.moduleName) != n
      {
        assert 0 <= 0 < |modules|;
      }
      UnbuiltNameKeepsEntry(table, m.moduleName, m.classes, h, n);
      forall i, k | 0 <= i < |modules[1..]| && 0 <= k < |modules[1..][i].classes| && modules[1..][i].classes[k].ctorError.None?
        ensures RegisteredName(modules[1..][i].classes[k], modules[1..][i].moduleName) != n
      {
        assert modules[1..][i] == modules[i + 1];
      }
      AllUnbuiltNameKeepsEntry(BuiltTable(table, m.moduleName, m.classes, h), modules[1..], h, n);
    }
  }

  /** The last writer wins across the whole load: a name holds the instance
      of the last constructing class, in module order and then class order,
      registered under it. */
  lemma {:induction false} AllLastBuiltWins(table: map<string, Cmd>, modules: seq<ModuleDesc>, h: CommandHandler,
                                            i: nat, j: nat)
    requires i < |modules| && j < |modules[i].classes| && modules[i].classes[j].ctorError.None?
    requires forall k :: j < k < |modules[i].classes| && modules[i].classes[k].ctorError.None? ==>
               RegisteredName(modules[i].classes[k], modules[i].moduleName)
               != RegisteredName(modules[i].classes[j], modules[i].moduleName)
    requires forall i', k :: i < i' < |modules| && 0 <= k < |modules[i'].classes| && modules[i'].classes[k].ctorError.None?
               ==> RegisteredName(modules[i'].classes[k], modules[i'].moduleName)
                   != RegisteredName(modules[i].classes[j], modules[i].moduleName)
    ensures var n := RegisteredName(modules[i].classes[j], modules[i].moduleName);
            n in AllBuiltTable(table, modules, h)
            && AllBuiltTable(table, modules, h)[n] == Construct(modules[i].classes[j], h).cmd
    decreases |modules|
  {
    var m := modules[0];
    var n := RegisteredName(modules[i].classes[j], modules[i].moduleName);
    var next := BuiltTable(table, m.moduleName, m.classes, h);
    if i == 0 {
      LastBuiltWins(table, m.moduleName, m.classes, h, j);
      forall i', k | 0 <= i' < |modules[1..]| && 0 <= k < |modules[1..][i'].classes| && modules[1..][i'].classes[k].ctorError.None?
        ensures RegisteredName(modules[1..][i'].classes[k], modules[1..][i'].moduleName) != n
      {
        assert modules[1..][i'] == modules[i' + 1];
      }
      AllUnbuiltNameKeepsEntry(next, modules[1..], h, n);
    } else {
      assert modules[1..][i - 1] == modules[i];
      forall i', k | i - 1 < i' < |modules[1..]| && 0 <= k < |modules[1..][i'].classes| && modules[1..][i'].classes[k].ctorError.None?
        ensures RegisteredName(modules[1..][i'].classes[k], modules[1..][i'].moduleName) != n
      {
        assert modules[1..][i'] == modules[i' + 1];
      }
      AllLastBuiltWins(next, modules[1..], h, i - 1, j);
    }
  }

  lemma NoFatalFirst(modules: seq<ModuleDesc>)
    requires |modules| > 0 && NoFatal(modules)
    ensures forall j :: 0 <= j < |modules[0].classes| ==>
              modules[0].classes[j].ctorError.None? || modules[0].classes[j].ctorError.value.TypeError?
  {
    forall j | 0 <= j < |modules[0].classes|
      ensures modules[0].classes[j].ctorError.None? || modules[0].classes[j].ctorError.value.TypeError?
    {
      assert 0 <= 0 < |modules| && 0 <= j < |modules[0].classes|;
    }
  }

  lemma NoFatalRest(modules: seq<ModuleDesc>)
    requires |modules| > 0 && NoFatal(modules)
    ensures NoFatal(modules[1..])
  {
    forall i, j | 0 <= i < |modules[1..]| && 0 <= j < |modules[1..][i].classes|
      ensures modules[1..][i].classes[j].ctorError.None? || modules[1..][i].classes[j].ctorError.value.TypeError?
    {
      assert modules[1..][i] == modules[i + 1];
    }
  }

  /** Skip and continue, for the whole load. */
  lemma {:induction false} LoadSkipsTypeErrors(st: LoadState, modules: seq<ModuleDesc>, h: CommandHandler)
    requires st.failure.None? && NoFatal(modules)
    ensures var r := LoadModules(st, modules, h);
            && r.failure.None?
            && r.table.Keys == st.table.Keys + AllBuiltNames(modules)
            && r.table == AllBuiltTable(st.table, modules, h)
            && r.log == st.log + AllSkips(modules)
    decreases |modules|
  {
    if |modules| > 0 {
      var m := modules[0];
      NoFatalFirst(modules);
      LoadClassesSkipsTypeErrors(st, m.moduleName, m.classes, h);
      LoadClassesBuildsTable(st, m.moduleName, m.classes, h);
      var st' := LoadClasses(st, m.moduleName, m.classes, h);
      NoFatalRest(modules);
      LoadSkipsTypeErrors(st', modules[1..], h);
      assert st.log + AllSkips(modules) == st'.log + AllSkips(modules[1..]);
    } else {
      assert st.log + [] == st.log;
    }
  }

  /** The first constructor to raise anything but a `TypeError` ends the
      load: nothing after it is registered or reported. */
  lemma FatalErrorStopsLoad(st: LoadState, m: string, d: ClassDesc, rest: seq<ModuleDesc>,
                            more: seq<ClassDesc>, h: CommandHandler)
    requires st.failure.None? && d.ctorError.Some? && !d.ctorError.value.TypeError?
    ensures LoadModules(st, [ModuleDesc(m, [d] + more)] + rest, h)
            == st.(failure := d.ctorError)
  {
    var mods := [ModuleDesc(m, [d] + more)] + rest;
    assert mods[0].classes[0] == d && mods[0].classes[1..] == more;
    assert mods[1..] == rest;
    var failed := st.(failure := d.ctorError);
    assert LoadClass(st, m, d, h) == failed;
    assert LoadClasses(st, m, [d] + more, h) == LoadClasses(failed, m, more, h) == failed;
  }
}
