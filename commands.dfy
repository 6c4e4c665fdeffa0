/** The command registry: the `Command` objects the calculator knows, the
    `CommandHandler` that maps names to them, and how a call is routed. */
module Commands {
  import opened Output
  import Arithmetic
  import MenuCommand

  /** A registered command object. Only the menu has state: a reference to
      the handler whose names it lists (not a copy of them). */
  datatype Cmd =
    | Add
    | Subtract
    | Multiply
    | Divide
    | Menu(style: MenuCommand.Style, commandHandler: CommandHandler)
    | Welcome
    | Quit

  const WELCOME := "Hello, Welcome to Calculator"
  const BYE := "Bye Bye"

  /** `execute(self)` of the welcome and quit commands takes no arguments. */
  function NoArguments(args: seq<string>, body: Outcome): (o: Outcome)
    ensures |args| > 0 ==> o.printed == [] && o.raised.Some? && o.raised.value.TypeError?
    ensures |args| == 0 ==> o == body
  {
    if |args| > 0 then Raise(TypeError(TooManyPositional(|args| + 1))) else body
  }

  /** What `c.execute(*args)` does. `live` is the key set of the menu's
      handler at the time of the call; the other commands ignore it. */
  function Perform(c: Cmd, args: seq<string>, parse: Arithmetic.DecimalParser, live: set<string>): (o: Outcome)
    ensures c.Menu? || c.Welcome? || c.Quit? ==> (|args| > 0 <==> o.raised.Some? && o.raised.value.TypeError?)
  {
    match c
    case Add => Arithmetic.Add(parse, args)
    case Subtract => Arithmetic.Subtract(parse, args)
    case Multiply => Arithmetic.Multiply(parse, args)
    case Divide => Arithmetic.Divide(parse, args)
    case Menu(style, _) => MenuCommand.Show(style, args, live)
    case Welcome => NoArguments(args, Printed([Text(WELCOME)]))
    case Quit => NoArguments(args, Raise(SystemExit(BYE)))
  }

  function Refs(c: Cmd): set<object>
  {
    if c.Menu? then {c.commandHandler} else {}
  }

  /** The names a command sees when it runs: the menu's handler's keys. */
  function LiveKeys(c: Cmd): set<string>
    reads Refs(c)
  {
    if c.Menu? then c.commandHandler.commands.Keys else {}
  }

  /** `c.execute(*args)`, reading the menu's handler when the call is made. */
  method Invoke(c: Cmd, args: seq<string>, parse: Arithmetic.DecimalParser) returns (o: Outcome)
    ensures o == Perform(c, args, parse, LiveKeys(c))
  {
    match c {
      case Menu(style, h) =>
        o := MenuCommand.Execute(style, h.commands.Keys, args);
      case _ =>
        o := Perform(c, args, parse, {});
    }
  }

  function NoSuchCommand(name: string): Line
  {
    Text("No such command: " + name)
  }

  /** The `except KeyError` around the lookup and the call: a `KeyError`
      becomes the unknown-command message, every other exception passes. */
  function ReportKeyError(name: string, o: Outcome): (r: Outcome)
    ensures r.raised != Some(KeyError)
    ensures o.raised != Some(KeyError) ==> r == o
    ensures o.raised == Some(KeyError) ==> r == Printed(o.printed + [NoSuchCommand(name)])
  {
    if o.raised == Some(KeyError) then Printed(o.printed + [NoSuchCommand(name)]) else o
  }

  /** `execute_command` as a function of the table: look the name up (a
      missing key raises `KeyError`), call the command, catch `KeyError`. */
  function Dispatch(table: map<string, Cmd>, name: string, args: seq<string>,
                    parse: Arithmetic.DecimalParser, live: set<string>): (o: Outcome)
    ensures o.raised != Some(KeyError)
  {
    ReportKeyError(name, if name in table then Perform(table[name], args, parse, live) else Raise(KeyError))
  }

  class CommandHandler {
    var commands: map<string, Cmd>

    /** `CommandHandler.__init__`: an empty table. */
    constructor()
      ensures commands == map[]
    {
      commands := map[];
    }

    /** `register_command`: insert or silently overwrite. */
    method RegisterCommand(name: string, command: Cmd)
      modifies this
      ensures commands == old(commands)[name := command]
    {
      commands := commands[name := command];
    }

    /** `execute_command`: reads the table, never changes it. */
    method ExecuteCommand(name: string, args: seq<string>, parse: Arithmetic.DecimalParser) returns (o: Outcome)
      ensures name !in commands ==> o == Printed([NoSuchCommand(name)])
      ensures name in commands ==> o == Dispatch(commands, name, args, parse, LiveKeys(commands[name]))
    {
      var r: Outcome;
      if name in commands {
        r := Invoke(commands[name], args, parse);
      } else {
        r := Raise(KeyError);
      }
      o := ReportKeyError(name, r);
    }
  }

  // ----- lemmas -----

  /** An unregistered name prints exactly the unknown-command line and
      raises nothing. */
  lemma UnknownNameReported(table: map<string, Cmd>, name: string, args: seq<string>,
                            parse: Arithmetic.DecimalParser, live: set<string>)
    requires name !in table
    ensures Dispatch(table, name, args, parse, live) == Printed([Text("No such command: " + name)])
  {
  }

  /** A registered name runs exactly that command on exactly the given
      arguments; whatever it raises, other than `KeyError`, propagates. */
  lemma RegisteredNameRunsItsCommand(table: map<string, Cmd>, name: string, args: seq<string>,
                                     parse: Arithmetic.DecimalParser, live: set<string>)
    requires name in table
    requires Perform(table[name], args, parse, live).raised != Some(KeyError)
    ensures Dispatch(table, name, args, parse, live) == Perform(table[name], args, parse, live)
  {
  }

  /** None of the calculator's own commands raises `KeyError`, so for them
      the handler's `except` only ever fires on a missing name. */
  lemma CommandsNeverRaiseKeyError(c: Cmd, args: seq<string>, parse: Arithmetic.DecimalParser, live: set<string>)
    ensures Perform(c, args, parse, live).raised != Some(KeyError)
  {
    match c
    case Subtract =>
      var u := Arithmetic.UnpackTwo(parse, args);
    case Multiply =>
      var u := Arithmetic.UnpackTwo(parse, args);
    case Divide =>
      var u := Arithmetic.UnpackTwo(parse, args);
    case _ =>
  }

  /** Only the menu looks at the live key set. */
  lemma DispatchSeesLiveKeysOnlyThroughMenu(table: map<string, Cmd>, name: string, args: seq<string>,
                                           parse: Arithmetic.DecimalParser, live1: set<string>, live2: set<string>)
    requires name in table ==> table[name].Menu? ==> live1 == live2
    ensures Dispatch(table, name, args, parse, live1) == Dispatch(table, name, args, parse, live2)
  {
  }

  /** The menu called without arguments prints the listing of the live
      names and raises nothing. */
  lemma MenuWithoutArguments(style: MenuCommand.Style, h: CommandHandler, parse: Arithmetic.DecimalParser, live: set<string>)
    ensures Perform(Menu(style, h), [], parse, live) == Printed(MenuCommand.Listing(style, live))
  {
  }

  /** Registering B under a name already holding A: a later call of that
      name runs B. The handler is exercised through its own methods. */
  method RegisterTwiceThenExecute(name: string, a: Cmd, b: Cmd, args: seq<string>,
                                  parse: Arithmetic.DecimalParser) returns (o: Outcome)
    ensures o == ReportKeyError(name, Perform(b, args, parse, LiveKeys(b)))
  {
    var handler := new CommandHandler();
    handler.RegisterCommand(name, a);
    handler.RegisterCommand(name, b);
    o := handler.ExecuteCommand(name, args, parse);
  }

  /** The menu reads the live table when it runs: a command registered after
      the menu was built is listed, and the menu call changes nothing. */
  method MenuSeesLaterRegistrations(style: MenuCommand.Style, later: string, c: Cmd,
                                    parse: Arithmetic.DecimalParser) returns (o: Outcome)
    requires later != "menu"
    ensures o == Printed(MenuCommand.Listing(style, {"menu", later}))
    ensures Text(MenuCommand.Item(style, later)) in o.printed
  {
    var handler := new CommandHandler();
    var menu := Menu(style, handler);
    handler.RegisterCommand("menu", menu);
    handler.RegisterCommand(later, c);
    var live := {"menu", later};
    assert handler.commands.Keys == live;
    assert handler.commands["menu"] == menu && LiveKeys(menu) == live;
    o := handler.ExecuteCommand("menu", [], parse);
    assert o == Dispatch(handler.commands, "menu", [], parse, live);
    MenuWithoutArguments(style, handler, parse, live);
    MenuCommand.ListsLiveName(style, live, later);
  }
}
