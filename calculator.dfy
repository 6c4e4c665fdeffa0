/** The calculator application: a command handler filled by the plugin
    loader, and the read-dispatch loop that feeds it one input line at a
    time. Console input is a given sequence of lines; console output is the
    sequence of lines printed. */
module Calculator {
  import opened Output
  import opened Lexing
  import opened Commands
  import Arithmetic
  import opened Loader

  const BANNER := "Calculator CLI - Type 'quit' to exit OR Menu to Continue"
  const GOODBYE := "Exiting calculator. Goodbye!"
  const NOT_A_COMMAND := "Please enter a valid command."

  /** How the loop ends: the `quit` shortcut, or an exception it does not
      catch (`EOFError` from `input()` once the lines run out, or anything a
      command raises other than `KeyError`). */
  datatype Stop = QuitRequested | Uncaught(e: Exc)

  /** One `execute_command(name, *args)` call made by the loop. */
  datatype Call = Call(name: string, args: seq<string>)

  /** A run of the loop: the lines printed, the calls made, how many input
      lines were read, and how it ended. */
  datatype Run = Run(out: seq<Line>, calls: seq<Call>, consumed: nat, stop: Stop)

  function After(out: seq<Line>, calls: seq<Call>, consumed: nat, r: Run): Run
  {
    Run(out + r.out, calls + r.calls, consumed + r.consumed, r.stop)
  }

  /** What the loop does with one input line: the lines printed, the
      `execute_command` call made (if any) and whether the loop ends. */
  datatype Effect = Effect(printed: seq<Line>, calls: seq<Call>, stop: Option<Stop>)

  /** `execute_command(name, *args)` of the calculator's handler, as seen by
      the loop. */
  type Executor = (string, seq<string>) -> Outcome

  /** The handler's `execute_command` over a fixed table. The menu's live key
      set is the table's own, as every menu refers to this handler. */
  function Executes(table: map<string, Cmd>, parse: Arithmetic.DecimalParser): (exec: Executor)
    ensures forall name, args :: exec(name, args).raised != Some(KeyError)
  {
    (name: string, args: seq<string>) => Dispatch(table, name, args, parse, table.Keys)
  }

  /** The effect of one parsed line. */
  function LineEffect(exec: Executor, line: Parsed): (e: Effect)
    ensures e.calls != [] <==> line.CommandLine?
    ensures |e.calls| <= 1
    ensures e.stop == Some(QuitRequested) <== line.QuitLine?
    ensures line.BlankLine? ==> e.stop.None?
  {
    match line
    case QuitLine => Effect([Text(GOODBYE)], [], Some(QuitRequested))
    case BlankLine => Effect([Text(NOT_A_COMMAND)], [], None)
    case CommandLine(name, args) =>
      var o := exec(name, args);
      Effect(o.printed, [Call(name, args)], if o.raised.Some? then Some(Uncaught(o.raised.value)) else None)
  }

  /** The loop over the parsed lines, one at a time. */
  function Loop(exec: Executor, lines: seq<Parsed>): (r: Run)
    ensures r.consumed <= |lines|
    ensures |r.calls| <= r.consumed
    decreases |lines|
  {
    if |lines| == 0 then Run([], [], 0, Uncaught(EOFError))
    else
      var e := LineEffect(exec, lines[0]);
      if e.stop.Some? then Run(e.printed, e.calls, 1, e.stop.value)
      else After(e.printed, e.calls, 1, Loop(exec, lines[1..]))
  }

  /** Every input line as the loop reads it. */
  function ParseAll(inputs: seq<string>): (lines: seq<Parsed>)
    ensures |lines| == |inputs|
  {
    if |inputs| == 0 then [] else [ParseLine(inputs[0])] + ParseAll(inputs[1..])
  }

  lemma {:induction false} ParseAllAt(inputs: seq<string>, i: nat)
    requires i < |inputs|
    ensures ParseAll(inputs)[i] == ParseLine(inputs[i])
  {
    var rest := ParseAll(inputs[1..]);
    assert ParseAll(inputs) == [ParseLine(inputs[0])] + rest;
    if i > 0 {
      ParseAllAt(inputs[1..], i - 1);
      assert inputs[1..][i - 1] == inputs[i];
    }
  }

  /** The loop over the raw input lines. */
  function Session(exec: Executor, inputs: seq<string>): (r: Run)
    ensures r.consumed <= |inputs|
  {
    Loop(exec, ParseAll(inputs))
  }

  /** One step of the loop: a run that has reached line `i` goes on with
      the effect of line `i`, and stops there or reaches line `i + 1`. */
  lemma {:induction false} LoopStep(exec: Executor, lines: seq<Parsed>, i: nat, trace: seq<Line>, calls: seq<Call>, e: Effect)
    requires i < |lines| && e == LineEffect(exec, lines[i])
    ensures e.stop.Some? ==> After(trace, calls, i, Loop(exec, lines[i..]))
                             == Run(trace + e.printed, calls + e.calls, i + 1, e.stop.value)
    ensures e.stop.None? ==> After(trace, calls, i, Loop(exec, lines[i..]))
                             == After(trace + e.printed, calls + e.calls, i + 1, Loop(exec, lines[i + 1..]))
  {
    assert lines[i..][0] == lines[i] && lines[i..][1..] == lines[i + 1..];
    if e.stop.None? {
      var r := Loop(exec, lines[i + 1..]);
      assert trace + (e.printed + r.out) == trace + e.printed + r.out;
      assert calls + (e.calls + r.calls) == calls + e.calls + r.calls;
    }
  }

  class Calculator {
    const commandHandler: CommandHandler

    /** Every menu in the table lists this calculator's own handler. */
    ghost predicate Valid()
      reads this, commandHandler
    {
      MenusBound(commandHandler.commands, commandHandler)
    }

    /** `Calculator.__init__` up to the call of `load_plugins`. */
    constructor()
      ensures Valid() && fresh(commandHandler) && commandHandler.commands == map[]
    {
      commandHandler := new CommandHandler();
    }

    /** `load_plugins`: the nested loops over modules and their command
      classes. Returns the `Skipping` lines printed and the exception that
      escaped, if any; the handler keeps what was registered before it. */
    method LoadPlugins(modules: seq<ModuleDesc>) returns (log: seq<Line>, failure: Option<Exc>)
      requires Valid()
      modifies commandHandler
      ensures Valid()
      ensures var r := LoadModules(LoadState(old(commandHandler.commands), [], None), modules, commandHandler);
              commandHandler.commands == r.table && log == r.log && failure == r.failure
    {
      log := [];
      failure := None;
      ghost var goal := LoadModules(LoadState(commandHandler.commands, [], None), modules, commandHandler);
      var i := 0;
      while i < |modules|
        invariant 0 <= i <= |modules|
        invariant Valid()
        invariant goal == LoadModules(LoadState(commandHandler.commands, log, None), modules[i..], commandHandler)
      {
        var m := modules[i];
        assert modules[i..][0] == m && modules[i..][1..] == modules[i + 1..];
        var j := 0;
        while j < |m.classes|
          invariant 0 <= j <= |m.classes|
          invariant Valid()
          invariant goal == LoadModules(LoadClasses(LoadState(commandHandler.commands, log, None), m.moduleName,
                                                    m.classes[j..], commandHandler),
                                        modules[i + 1..], commandHandler)
        {
          var d := m.classes[j];
          ghost var before := LoadState(commandHandler.commands, log, None);
          ghost var next := LoadClass(before, m.moduleName, d, commandHandler);
          assert m.classes[j..][0] == d && m.classes[j..][1..] == m.classes[j + 1..];
          assert LoadClasses(before, m.moduleName, m.classes[j..], commandHandler)
              == LoadClasses(next, m.moduleName, m.classes[j + 1..], commandHandler);
          var built := Construct(d, commandHandler);
          match built {
            case Instance(c) =>
              commandHandler.RegisterCommand(RegisteredName(d, m.moduleName), c);
            case Failed(e) =>
              if e.TypeError? {
                log := log + [Skipped(d.attrName, e)];
              } else {
                failure := Some(e);
                assert LoadClasses(next, m.moduleName, m.classes[j + 1..], commandHandler) == next;
                assert LoadModules(next, modules[i + 1..], commandHandler) == next;
                return;
              }
          }
          j := j + 1;
        }
        assert m.classes[j..] == [];
        i := i + 1;
      }
    }

    /** One `execute_command` call from the loop: the command runs against
      the handler's current table, and a menu sees that table's names. */
    method RunCommand(commandName: string, args: seq<string>, parse: Arithmetic.DecimalParser)
      returns (o: Outcome)
      requires Valid()
      ensures o == Executes(commandHandler.commands, parse)(commandName, args)
    {
      o := commandHandler.ExecuteCommand(commandName, args, parse);
      ghost var table := commandHandler.commands;
      if commandName in table {
        var c := table[commandName];
        if c.Menu? {
          assert c.commandHandler == commandHandler;
          assert LiveKeys(c) == table.Keys;
        }
        DispatchSeesLiveKeysOnlyThroughMenu(table, commandName, args, parse, LiveKeys(c), table.Keys);
      }
      assert o == Dispatch(table, commandName, args, parse, table.Keys);
    }

    /** The body of the loop in `start` once `input()` has returned line `i`
      of the input. */
    method HandleLine(inputs: seq<string>, i: nat, parse: Arithmetic.DecimalParser)
      returns (printed: seq<Line>, ghost calls: seq<Call>, stop: Option<Stop>)
      requires Valid() && i < |inputs|
      ensures printed == LineEffect(Executes(commandHandler.commands, parse), ParseAll(inputs)[i]).printed
      ensures stop == LineEffect(Executes(commandHandler.commands, parse), ParseAll(inputs)[i]).stop
      ensures calls == LineEffect(Executes(commandHandler.commands, parse), ParseAll(inputs)[i]).calls
    {
      ParseAllAt(inputs, i);
      var line := ParseLine(inputs[i]);
      match line {
        case QuitLine =>
          printed, calls, stop := [Text(GOODBYE)], [], Some(QuitRequested);
        case BlankLine =>
          printed, calls, stop := [Text(NOT_A_COMMAND)], [], None;
        case CommandLine(commandName, args) =>
          var o := RunCommand(commandName, args, parse);
          printed, calls := o.printed, [Call(commandName, args)];
          stop := if o.raised.Some? then Some(Uncaught(o.raised.value)) else None;
      }
    }

    /** `start`: print the banner, then read and handle lines until the
      `quit` shortcut or an uncaught exception. The ghost `calls` are the
      `execute_command` calls made, in order. */
    method Start(inputs: seq<string>, parse: Arithmetic.DecimalParser)
      returns (out: seq<Line>, stop: Stop, ghost calls: seq<Call>)
      requires Valid()
      ensures out == [Text(BANNER)] + Session(Executes(commandHandler.commands, parse), inputs).out
      ensures stop == Session(Executes(commandHandler.commands, parse), inputs).stop
      ensures calls == Session(Executes(commandHandler.commands, parse), inputs).calls
    {
      ghost var exec := Executes(commandHandler.commands, parse);
      ghost var lines := ParseAll(inputs);
      ghost var goal := Loop(exec, lines);
      var trace: seq<Line> := [];
      calls := [];
      var i := 0;
      while true
        invariant 0 <= i <= |inputs|
        invariant goal == After(trace, calls, i, Loop(exec, lines[i..]))
        decreases |inputs| - i
      {
        if i == |inputs| {
          // `input()` raises `EOFError`, which nothing catches
          assert lines[i..] == [];
          assert trace + [] == trace;
          return [Text(BANNER)] + trace, Uncaught(EOFError), calls;
        }
        var printed, lineCalls, lineStop := HandleLine(inputs, i, parse);
        LoopStep(exec, lines, i, trace, calls, Effect(printed, lineCalls, lineStop));
        if lineStop.Some? {
          return [Text(BANNER)] + (trace + printed), lineStop.value, calls + lineCalls;
        }
        trace := trace + printed;
        calls := calls + lineCalls;
        i := i + 1;
      }
    }
  }

  // ----- properties of the loop -----

  /** The `execute_command` calls that a sequence of parsed lines asks for. */
  function CommandCalls(lines: seq<Parsed>): seq<Call>
  {
    if |lines| == 0 then []
    else (match lines[0]
          case CommandLine(name, args) => [Call(name, args)]
          case _ => [])
         + CommandCalls(lines[1..])
  }

  /** What one raw line does, case by case: the shortcut prints the farewell
      and ends the loop without a call; a blank line prints the complaint
      and continues without a call; any other line makes exactly one call,
      with its first token as the name and the other tokens, in order, as
      the arguments, and prints what that call prints. */
  lemma LineEffectCases(exec: Executor, raw: string)
    ensures var e := LineEffect(exec, ParseLine(raw));
            && (e.stop == Some(QuitRequested) <==> IsQuitWord(Strip(raw)))
            && (IsQuitWord(Strip(raw)) ==> e.printed == [Text(GOODBYE)] && e.calls == [])
            && (AllSpace(raw) <==> e == Effect([Text(NOT_A_COMMAND)], [], None))
            && (!AllSpace(raw) && !IsQuitWord(Strip(raw)) ==>
                  var ts := Tokens(raw);
                  ts != [] && e.calls == [Call(ts[0], ts[1..])] && e.printed == exec(ts[0], ts[1..]).printed)
  {
    BlankIffAllSpace(raw);
    ParseLineByTokens(raw);
  }

  /** An unknown command name is reported and the loop goes on. */
  lemma UnknownCommandContinues(table: map<string, Cmd>, parse: Arithmetic.DecimalParser, name: string, args: seq<string>)
    requires name !in table
    ensures LineEffect(Executes(table, parse), CommandLine(name, args))
            == Effect([NoSuchCommand(name)], [Call(name, args)], None)
  {
  }

  /** The loop calls `execute_command` once for each command line it reads,
      in order, and for nothing else. */
  lemma {:induction false} LoopCallsCommandLines(exec: Executor, lines: seq<Parsed>)
    ensures var r := Loop(exec, lines);
            r.consumed <= |lines| && r.calls == CommandCalls(lines[..r.consumed])
    decreases |lines|
  {
    if |lines| > 0 {
      var e := LineEffect(exec, lines[0]);
      var r := Loop(exec, lines);
      var own := match lines[0]
                 case CommandLine(name, args) => [Call(name, args)]
                 case _ => [];
      assert e.calls == own;
      if e.stop.Some? {
        assert lines[..1][0] == lines[0] && lines[..1][1..] == [];
        assert CommandCalls(lines[..1]) == own + [];
      } else {
        var r' := Loop(exec, lines[1..]);
        LoopCallsCommandLines(exec, lines[1..]);
        var c := r.consumed;
        assert lines[..c][0] == lines[0] && lines[..c][1..] == lines[1..][..r'.consumed];
      }
    }
  }

  /** The loop reads lines up to and including the first one that stops it
      (the shortcut, or an exception escaping a command) and no further;
      with no such line it reads every line and ends in `EOFError`. */
  lemma {:induction false} LoopStopsAtFirstStop(exec: Executor, lines: seq<Parsed>, k: nat)
    requires k <= |lines|
    requires forall j :: 0 <= j < k ==> LineEffect(exec, lines[j]).stop.None?
    requires k < |lines| ==> LineEffect(exec, lines[k]).stop.Some?
    ensures var r := Loop(exec, lines);
            && r.consumed == (if k < |lines| then k + 1 else k)
            && r.stop == (if k < |lines| then LineEffect(exec, lines[k]).stop.value else Uncaught(EOFError))
    decreases k
  {
    if k > 0 {
      assert LineEffect(exec, lines[0]).stop.None?;
      forall j | 0 <= j < k - 1 ensures LineEffect(exec, lines[1..][j]).stop.None? {
        assert lines[1..][j] == lines[j + 1];
      }
      if k < |lines| {
        assert lines[1..][k - 1] == lines[k];
      }
      LoopStopsAtFirstStop(exec, lines[1..], k - 1);
    }
  }

  /** The `quit` shortcut ends the loop, and nothing else does without an
      exception: the loop ends normally exactly when the last line it read
      is the shortcut, and then its last output line is the farewell. */
  lemma {:induction false} QuitEndsLoop(exec: Executor, lines: seq<Parsed>)
    ensures var r := Loop(exec, lines);
            && r.consumed <= |lines|
            && (r.stop == QuitRequested <==> r.consumed > 0 && lines[r.consumed - 1] == QuitLine)
            && (r.stop == QuitRequested ==> |r.out| > 0 && r.out[|r.out| - 1] == Text(GOODBYE))
            && (forall j :: 0 <= j < r.consumed - 1 ==> lines[j] != QuitLine)
    decreases |lines|
  {
    if |lines| > 0 {
      var e := LineEffect(exec, lines[0]);
      if e.stop.None? {
        var r' := Loop(exec, lines[1..]);
        QuitEndsLoop(exec, lines[1..]);
        forall j | 0 <= j < 1 + r'.consumed - 1 ensures lines[j] != QuitLine {
          if j > 0 {
            assert lines[j] == lines[1..][j - 1];
          }
        }
        if r'.consumed > 0 {
          assert lines[1 + r'.consumed - 1] == lines[1..][r'.consumed - 1];
        }
        var r := Loop(exec, lines);
        if r.stop == QuitRequested {
          assert r.out[|r.out| - 1] == r'.out[|r'.out| - 1];
        }
      }
    }
  }
}
