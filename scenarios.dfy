/** The calculator as shipped: the seven plugin modules that
    `calculator.plugins` holds, what loading them gives, and the sessions
    that the repository's own tests run against it. */
module Scenarios {
  import opened Output
  import opened Lexing
  import opened Commands
  import opened MenuCommand
  import opened Loader
  import opened Calculator
  import Arithmetic

  /** A plugin package `calculator.plugins.<seg>` defining one `Command`
      subclass, named `attrName`, with no `command_name` and a constructor
      that does not raise. */
  datatype PluginSpec = PluginSpec(seg: string, attrName: string, kind: Kind)

  function Class(p: PluginSpec): ClassDesc
  {
    ClassDesc(p.attrName, p.kind, None, None)
  }

  function Package(p: PluginSpec): ModuleDesc
  {
    ModuleDesc("calculator.plugins." + p.seg, [Class(p)])
  }

  function Packages(ps: seq<PluginSpec>): (ms: seq<ModuleDesc>)
    ensures |ms| == |ps|
  {
    if |ps| == 0 then [] else [Package(ps[0])] + Packages(ps[1..])
  }

  /** The table after registering each package's command under its last
      name segment, in order. */
  function RegisterAll(table: map<string, Cmd>, ps: seq<PluginSpec>, h: CommandHandler): map<string, Cmd>
    decreases |ps|
  {
    if |ps| == 0 then table
    else RegisterAll(table[ps[0].seg := Construct(Class(ps[0]), h).cmd], ps[1..], h)
  }

  /** The plugin packages in the order the package scan yields them. */
  const SHIPPED: seq<PluginSpec> :=
    [ PluginSpec("add", "AddCommand", AddClass),
      PluginSpec("divide", "DivideCommand", DivideClass),
      PluginSpec("menu", "MenuCommand", MenuClass(PluginsMenu)),
      PluginSpec("multiply", "MultiplyCommand", MultiplyClass),
      PluginSpec("quit", "QuitCommand", QuitClass),
      PluginSpec("subtract", "SubtractCommand", SubtractClass),
      PluginSpec("welcome", "WelcomeCommand", WelcomeClass) ]

  function RepositoryPlugins(): seq<ModuleDesc>
  {
    Packages(SHIPPED)
  }

  /** The command table of a calculator whose handler is `h`. */
  function StandardTable(h: CommandHandler): map<string, Cmd>
  {
    map["add" := Add, "divide" := Divide, "menu" := Menu(PluginsMenu, h),
        "multiply" := Multiply, "quit" := Quit, "subtract" := Subtract, "welcome" := Welcome]
  }

  const PLUGIN_NAMES: set<string> := {"add", "divide", "menu", "multiply", "quit", "subtract", "welcome"}

  // ----- loading the shipped plugins -----

  /** One plugin package loads as one registration under its last name
      segment. */
  lemma LoadPackage(st: LoadState, p: PluginSpec, h: CommandHandler)
    requires st.failure.None? && '.' !in p.seg
    ensures LoadClasses(st, Package(p).moduleName, Package(p).classes, h)
            == st.(table := st.table[p.seg := Construct(Class(p), h).cmd])
  {
    var m := Package(p);
    var d := Class(p);
    LastSegmentOfDotted("calculator.plugins", p.seg);
    assert "calculator.plugins." + p.seg == "calculator.plugins" + "." + p.seg;
    assert RegisteredName(d, m.moduleName) == p.seg;
    var next := st.(table := st.table[p.seg := Construct(d, h).cmd]);
    assert LoadClass(st, m.moduleName, d, h) == next;
    assert m.classes[0] == d && m.classes[1..] == [];
  }

  /** Packages whose names have no dot and whose constructors do not raise
      load in order, each registered under its own name, printing nothing. */
  lemma {:induction false} LoadPackages(st: LoadState, ps: seq<PluginSpec>, h: CommandHandler)
    requires st.failure.None?
    requires forall k :: 0 <= k < |ps| ==> '.' !in ps[k].seg
    ensures LoadModules(st, Packages(ps), h) == st.(table := RegisterAll(st.table, ps, h))
    decreases |ps|
  {
    if |ps| > 0 {
      var ms := Packages(ps);
      assert ms[0] == Package(ps[0]) && ms[1..] == Packages(ps[1..]);
      assert '.' !in ps[0].seg;
      LoadPackage(st, ps[0], h);
      var st' := st.(table := st.table[ps[0].seg := Construct(Class(ps[0]), h).cmd]);
      assert forall k :: 0 <= k < |ps[1..]| ==> '.' !in ps[1..][k].seg by {
        forall k | 0 <= k < |ps[1..]| ensures '.' !in ps[1..][k].seg {
          assert ps[1..][k] == ps[k + 1];
        }
      }
      LoadPackages(st', ps[1..], h);
    }
  }

  /** No shipped package name has a dot in its last segment. */
  lemma ShippedNamesHaveNoDot()
    ensures forall k :: 0 <= k < |SHIPPED| ==> '.' !in SHIPPED[k].seg
  {
    forall k | 0 <= k < |SHIPPED| ensures '.' !in SHIPPED[k].seg {
      assert k in {0, 1, 2, 3, 4, 5, 6};
    }
  }

  lemma RegisterStep(table: map<string, Cmd>, ps: seq<PluginSpec>, i: nat, h: CommandHandler, c: Cmd)
    requires i < |ps| && c == Construct(Class(ps[i]), h).cmd
    ensures RegisterAll(table, ps[i..], h) == RegisterAll(table[ps[i].seg := c], ps[i + 1..], h)
  {
    assert ps[i..][0] == ps[i] && ps[i..][1..] == ps[i + 1..];
  }

  /** The first three shipped packages register add, divide and the menu. */
  lemma ShippedFront(h: CommandHandler)
    ensures RegisterAll(map[], SHIPPED, h)
            == RegisterAll(map["add" := Add, "divide" := Divide, "menu" := Menu(PluginsMenu, h)], SHIPPED[3..], h)
  {
    var ps := SHIPPED;
    var t0: map<string, Cmd> := map[];
    var t1 := t0["add" := Add];
    var t2 := t1["divide" := Divide];
    var t3 := t2["menu" := Menu(PluginsMenu, h)];
    assert ps[0..] == ps;
    RegisterStep(t0, ps, 0, h, Add);
    RegisterStep(t1, ps, 1, h, Divide);
    RegisterStep(t2, ps, 2, h, Menu(PluginsMenu, h));
  }

  /** The other four register multiply, quit, subtract and welcome. */
  lemma ShippedBack(t3: map<string, Cmd>, h: CommandHandler)
    ensures RegisterAll(t3, SHIPPED[3..], h)
            == t3["multiply" := Multiply]["quit" := Quit]["subtract" := Subtract]["welcome" := Welcome]
  {
    var ps := SHIPPED;
    var t4 := t3["multiply" := Multiply];
    var t5 := t4["quit" := Quit];
    var t6 := t5["subtract" := Subtract];
    RegisterStep(t3, ps, 3, h, Multiply);
    RegisterStep(t4, ps, 4, h, Quit);
    RegisterStep(t5, ps, 5, h, Subtract);
    RegisterStep(t6, ps, 6, h, Welcome);
    assert ps[7..] == [];
  }

  lemma ShippedTable(h: CommandHandler)
    ensures RegisterAll(map[], SHIPPED, h) == StandardTable(h)
  {
    var t3: map<string, Cmd> := map["add" := Add, "divide" := Divide, "menu" := Menu(PluginsMenu, h)];
    ShippedFront(h);
    ShippedBack(t3, h);
  }

  /** Loading the shipped plugins into an empty handler registers the seven
      commands under their package names, binds the menu to that handler,
      prints nothing and stops on no error. */
  lemma RepositoryPluginsLoad(h: CommandHandler)
    ensures LoadModules(LoadState(map[], [], None), RepositoryPlugins(), h) == LoadState(StandardTable(h), [], None)
  {
    ShippedNamesHaveNoDot();
    LoadPackages(LoadState(map[], [], None), SHIPPED, h);
    ShippedTable(h);
  }

  /** `Calculator()`: an empty handler, then `load_plugins` over the shipped
      plugin packages. */
  method NewCalculator() returns (app: Calculator, log: seq<Line>, failure: Option<Exc>)
    ensures app.Valid()
    ensures app.commandHandler.commands == StandardTable(app.commandHandler)
    ensures app.commandHandler.commands.Keys == PLUGIN_NAMES
    ensures log == [] && failure == None
  {
    app := new Calculator();
    log, failure := app.LoadPlugins(RepositoryPlugins());
    RepositoryPluginsLoad(app.commandHandler);
  }

  // ----- sessions -----

  lemma ParseQuitWord(w: string)
    requires IsQuitWord(w)
    ensures ParseLine(w) == QuitLine
  {
    assert !IsSpace(w[0]) && !IsSpace(w[3]);
    assert "" + w + "" == w;
    StripPadded("", w, "");
  }

  lemma ParseOneWord(w: string)
    requires IsWord(w) && !IsQuitWord(w)
    ensures ParseLine(w) == CommandLine(w, [])
  {
    ParseJoinedWords([w]);
    assert [w][1..] == [];
  }

  lemma ParseQuit()
    ensures ParseLine("quit") == QuitLine
  {
    ParseQuitWord("quit");
  }

  lemma ParseAllOfOne(a: string)
    ensures ParseAll([a]) == [ParseLine(a)]
  {
    assert [a][1..] == [];
  }

  lemma ParseAllOfTwo(a: string, b: string)
    ensures ParseAll([a, b]) == [ParseLine(a), ParseLine(b)]
  {
    assert [a, b][1..] == [b];
    ParseAllOfOne(b);
  }

  lemma {:induction false} CommandThenQuitLoop(exec: Executor, name: string, args: seq<string>)
    requires exec(name, args).raised == None
    ensures Loop(exec, [CommandLine(name, args), QuitLine])
            == Run(exec(name, args).printed + [Text(GOODBYE)], [Call(name, args)], 2, QuitRequested)
  {
    var lines := [CommandLine(name, args), QuitLine];
    assert lines[1..] == [QuitLine];
    assert [Call(name, args)] + [] == [Call(name, args)];
  }

  /** A line that calls a command raising nothing, then the shortcut: what
      the command prints, then the farewell. */
  lemma CommandThenQuit(exec: Executor, raw: string, name: string, args: seq<string>, quit: string)
    requires ParseLine(raw) == CommandLine(name, args) && IsQuitWord(quit)
    requires exec(name, args).raised == None
    ensures Session(exec, [raw, quit])
            == Run(exec(name, args).printed + [Text(GOODBYE)], [Call(name, args)], 2, QuitRequested)
  {
    ParseQuitWord(quit);
    ParseAllOfTwo(raw, quit);
    assert ParseAll([raw, quit]) == [CommandLine(name, args), QuitLine];
    CommandThenQuitLoop(exec, name, args);
  }

  /** The input `quit` alone: the farewell, no call, and a normal end. */
  lemma QuitSession(exec: Executor)
    ensures Session(exec, ["quit"]) == Run([Text(GOODBYE)], [], 1, QuitRequested)
  {
    ParseAllOfOne("quit");
    ParseQuit();
  }

  lemma UnknownNameOutcome(table: map<string, Cmd>, parse: Arithmetic.DecimalParser, name: string)
    requires name !in table
    ensures Executes(table, parse)(name, []) == Printed([NoSuchCommand(name)])
    ensures Executes(table, parse)(name, []).printed + [Text(GOODBYE)] == [NoSuchCommand(name), Text(GOODBYE)]
  {
    UnknownNameReported(table, name, [], parse, table.Keys);
  }

  /** An unregistered name, then the shortcut: the unknown name is
      reported, the loop goes on, and the shortcut ends it. */
  lemma UnknownCommandSession(table: map<string, Cmd>, parse: Arithmetic.DecimalParser, name: string, quit: string)
    requires IsWord(name) && !IsQuitWord(name) && name !in table && IsQuitWord(quit)
    ensures Session(Executes(table, parse), [name, quit])
            == Run([NoSuchCommand(name), Text(GOODBYE)], [Call(name, [])], 2, QuitRequested)
  {
    ParseOneWord(name);
    UnknownNameOutcome(table, parse, name);
    CommandThenQuit(Executes(table, parse), name, name, [], quit);
  }

  /** Proof step of `UnknownCommandTest`: its input is one word that is
      neither the shortcut nor a shipped command name. */
  lemma UnknownCommandIsAWord()
    ensures IsWord("unknown_command") && !IsQuitWord("unknown_command") && IsQuitWord("quit")
    ensures "unknown_command" !in PLUGIN_NAMES
  {
  }

  /** Proof step of `UnknownCommandTest`: the line the handler prints for
      that word. */
  lemma UnknownCommandMessage()
    ensures NoSuchCommand("unknown_command") == Text("No such command: unknown_command")
  {
  }

  /** `test_calculator_start_exit_command`: the banner, then the farewell. */
  method ExitCommandTest(parse: Arithmetic.DecimalParser) returns (out: seq<Line>, stop: Stop)
    ensures out == [Text("Calculator CLI - Type 'quit' to exit OR Menu to Continue"),
                    Text("Exiting calculator. Goodbye!")]
    ensures stop == QuitRequested
  {
    var app, log, failure := NewCalculator();
    QuitSession(Executes(app.commandHandler.commands, parse));
    ghost var calls;
    out, stop, calls := app.Start(["quit"], parse);
  }

  /** `test_calculator_start_unknown_command`: the banner, the unknown-command
      line, then the farewell. */
  method UnknownCommandTest(parse: Arithmetic.DecimalParser) returns (out: seq<Line>, stop: Stop)
    ensures out == [Text("Calculator CLI - Type 'quit' to exit OR Menu to Continue"),
                    Text("No such command: unknown_command"),
                    Text("Exiting calculator. Goodbye!")]
    ensures stop == QuitRequested
  {
    var app, log, failure := NewCalculator();
    UnknownCommandIsAWord();
    UnknownCommandMessage();
    UnknownCommandSession(app.commandHandler.commands, parse, "unknown_command", "quit");
    ghost var calls;
    out, stop, calls := app.Start(["unknown_command", "quit"], parse);
  }

  lemma ShippedWords()
    ensures IsWord("menu") && !IsQuitWord("menu") && IsQuitWord("quit")
  {
  }

  /** Proof step of the menu scenarios: the shipped table's names. */
  lemma StandardKeys(h: CommandHandler)
    ensures StandardTable(h).Keys == PLUGIN_NAMES
  {
  }

  lemma MenuOutcome(table: map<string, Cmd>, parse: Arithmetic.DecimalParser, style: Style, h: CommandHandler)
    requires "menu" in table && table["menu"] == Menu(style, h)
    ensures Executes(table, parse)("menu", []) == Printed(Listing(style, table.Keys))
  {
  }

  /** `menu` then `quit` on a calculator whose `menu` entry is a menu: the
      listing of every registered name, then the farewell. With the shipped
      plugins loaded the registered names are `PLUGIN_NAMES`
      (`StandardKeys`). */
  lemma MenuSession(table: map<string, Cmd>, parse: Arithmetic.DecimalParser, style: Style, h: CommandHandler)
    requires "menu" in table && table["menu"] == Menu(style, h)
    ensures Session(Executes(table, parse), ["menu", "quit"]).out
            == Listing(style, table.Keys) + [Text(GOODBYE)]
  {
    ShippedWords();
    ParseOneWord("menu");
    MenuOutcome(table, parse, style, h);
    CommandThenQuit(Executes(table, parse), "menu", "menu", [], "quit");
  }

  lemma AddOutcome(h: CommandHandler, parse: Arithmetic.DecimalParser)
    requires parse("10") == Some(10.0) && parse("5") == Some(5.0)
    ensures Executes(StandardTable(h), parse)("add", ["10", "5"]) == Printed([Value(Arithmetic.ADD_RESULT, 15.0)])
  {
    var args := ["10", "5"];
    assert args[0] == "10" && args[1] == "5";
    assert Arithmetic.Add(parse, args).printed == [Value(Arithmetic.ADD_RESULT, 15.0)];
  }

  /** `add 10 5` on the loaded calculator prints the sum and the loop goes on. */
  lemma AddSession(h: CommandHandler, parse: Arithmetic.DecimalParser)
    requires parse("10") == Some(10.0) && parse("5") == Some(5.0)
    ensures Session(Executes(StandardTable(h), parse), ["add 10 5", "quit"]).out
            == [Value(Arithmetic.ADD_RESULT, 15.0), Text(GOODBYE)]
  {
    ShippedWords();
    ParseAddExample();
    AddOutcome(h, parse);
    CommandThenQuit(Executes(StandardTable(h), parse), "add 10 5", "add", ["10", "5"], "quit");
  }

  /** A line whose command raises something other than `KeyError` ends the
      loop there: the next line is never read. */
  lemma {:induction false} CommandRaises(exec: Executor, raw: string, name: string, args: seq<string>, next: string)
    requires ParseLine(raw) == CommandLine(name, args)
    requires exec(name, args).raised.Some?
    ensures Session(exec, [raw, next])
            == Run(exec(name, args).printed, [Call(name, args)], 1, Uncaught(exec(name, args).raised.value))
  {
    ParseAllOfTwo(raw, next);
  }

  lemma QuitNowOutcome(h: CommandHandler, parse: Arithmetic.DecimalParser)
    ensures Executes(StandardTable(h), parse)("quit", ["now"]) == Raise(TypeError(TooManyPositional(2)))
  {
  }

  /** `quit now` is not the shortcut: it calls the quit command with an
      argument its `execute(self)` does not take, and the `TypeError`
      escapes the loop. */
  lemma QuitWithArgumentSession(h: CommandHandler, parse: Arithmetic.DecimalParser)
    ensures Session(Executes(StandardTable(h), parse), ["quit now", "quit"])
            == Run([], [Call("quit", ["now"])], 1, Uncaught(TypeError(TooManyPositional(2))))
  {
    ParseQuitWithArgument();
    QuitNowOutcome(h, parse);
    CommandRaises(Executes(StandardTable(h), parse), "quit now", "quit", ["now"], "quit");
  }
}
