# Command-line calculator: a Dafny model

This project models an interactive command-line calculator. The model covers:

- the `CommandHandler` registry, which maps command names to command objects;
- the dispatch loop of `Calculator.start`, which reads a line, strips it, honours the `quit` shortcut, splits the line into a command name and arguments, and dispatches;
- the decisions that `Calculator.load_plugins` takes for each command class it finds;
- the menu command, which lists the live registry in sorted order;
- the four arithmetic commands (add, subtract, multiply, divide).

The model has one Dafny module per concern:

| module | file | models |
|---|---|---|
| `Output` | output.dfy | printed lines, exceptions, and the outcome of a call (lines printed plus the exception raised, if any) |
| `Order` | order.dfy | Python's string `<` (code-point lexicographic order) and `sorted()` of a set of keys |
| `Lexing` | lexing.dfy | `strip`, `lower() == "quit"`, `split(maxsplit=1)`, `split()`, and the per-line parse of the loop |
| `MenuCommand` | menu.dfy | both menu commands (the `plugins` copy with its hint line and trailing space, and the `commands` copy without them) |
| `Arithmetic` | arithmetic.dfy | add, subtract, multiply, divide, `validate_args`, and `a, b = map(Decimal, args)` |
| `Commands` | commands.dfy | the command objects, and `CommandHandler` as a class with a `map` field |
| `Loader` | loader.dfy | constructor choice, name choice, skip-on-`TypeError` and stop-on-anything-else in `load_plugins` |
| `Calculator` | calculator.dfy | the `Calculator` class: its handler, `load_plugins` as nested loops, and `start` as a loop over given input lines |
| `Scenarios` | scenarios.dfy | the seven shipped plugin packages, what loading them gives, and the sessions of the repository's own tests |

Conventions used throughout:

- Console input is a `seq<string>` of lines. Console output is a `seq<Line>` of printed lines.
- A result line is kept as a prefix and an exact `real` value rather than as formatted text.
- `Decimal(s)` is an abstract parameter `parse: string -> Option<real>`. `None` stands for `InvalidOperation`.
- An exception that escapes a command is part of the outcome. The loop stops on it, because nothing in `start` catches it.
- The copies of the add, multiply, menu and divide commands in the `commands` package and in the misspelled `pulgins` package print the same lines as their `plugins` counterparts, apart from the menu's hint line and trailing space. They therefore share the definitions: the menu through its `Style`, the others through the same functions.

## Model

| member | source | states |
|---|---|---|
| Order.BelowIrreflexive | calculator/plugins/menu/__init__.py:51 | no string sorts before itself |
| Order.BelowTransitive | calculator/plugins/menu/__init__.py:51 | the string order used by `sorted` is transitive |
| Order.BelowTotal | calculator/plugins/menu/__init__.py:51 | any two distinct strings are ordered one way or the other |
| Order.BelowAsymmetric | calculator/plugins/menu/__init__.py:51 | two strings are never each below the other |
| Order.BelowIsStrictOrder | calculator/plugins/menu/__init__.py:51 | asymmetry, stated for all pairs at once |
| Order.LeastExists | calculator/plugins/menu/__init__.py:51 | every non-empty key set has a least element |
| Order.Least | calculator/plugins/menu/__init__.py:51 | the chosen element is in the set and below every other member |
| Order.SortedKeys | calculator/plugins/menu/__init__.py:51 | `sorted(keys)` has one entry per key, holds exactly the keys, and is strictly ascending |
| Order.AscendingHasNoDuplicates | calculator/plugins/menu/__init__.py:51 | a strictly ascending list holds each name at one position only |
| Order.SortedKeysUnique | calculator/plugins/menu/__init__.py:51 | any strictly ascending list of exactly the keys is `sorted(keys)`, so the menu's order is determined by the key set alone |
| Lexing.TrimStart | calculator/__init__.py:85 | `lstrip` never lengthens the line, and what remains does not start with whitespace |
| Lexing.TrimStartSuffix | calculator/__init__.py:85 | `lstrip` keeps a suffix of the line and removes only whitespace |
| Lexing.TrimEnd | calculator/__init__.py:85 | `rstrip` never lengthens the line, and what remains does not end with whitespace |
| Lexing.TrimEndPrefix | calculator/__init__.py:85 | `rstrip` keeps a prefix of the line and removes only whitespace |
| Lexing.StripSpec | calculator/__init__.py:85 | `strip()` returns a slice of the line with only whitespace outside it and no whitespace at either end |
| Lexing.Strip | calculator/__init__.py:85 | `strip()` is `rstrip` after `lstrip`: never longer than the line, and never ending in whitespace |
| Lexing.StripPadded | calculator/__init__.py:85 | a word padded with whitespace strips to the word |
| Lexing.Word | calculator/__init__.py:92 | a run is whitespace-free and ends at whitespace or at the end of the text |
| Lexing.WordPrefix | calculator/__init__.py:92 | the run is a prefix of the text it is cut from |
| Lexing.Tokens | calculator/__init__.py:92 | every token of `split()` is a non-empty, whitespace-free word |
| Lexing.SplitOnce | calculator/__init__.py:90 | `split(maxsplit=1)` returns at most two parts |
| Lexing.IsQuitWord | calculator/__init__.py:86 | a line that lowers to `quit` is a single whitespace-free word |
| Lexing.ParseLine | calculator/__init__.py:85-97 | the per-line rules: a line is the shortcut exactly when its stripped text lowers to `quit`, and a command line's name and arguments are non-empty, whitespace-free words |
| Lexing.TokensOfTrimStart | calculator/__init__.py:92 | leading whitespace does not change `split()` |
| Lexing.TokensEmptyIff | calculator/__init__.py:91-92 | a line has no tokens exactly when it is all whitespace |
| Lexing.TokensAppendSpace | calculator/__init__.py:92 | trailing whitespace does not change `split()` |
| Lexing.TokensOfStrip | calculator/__init__.py:85-92 | stripping a line does not change its tokens |
| Lexing.SplitOnceThenSplit | calculator/__init__.py:90-92 | `split(maxsplit=1)` followed by `split()` of the rest gives the head and the tail of one full `split()` |
| Lexing.ParseLineByTokens | calculator/__init__.py:85-97 | a line is the shortcut exactly when its stripped text lowers to `quit`; otherwise it is blank when it has no tokens, and otherwise it is the first token called with the remaining tokens, in order |
| Lexing.BlankIffAllSpace | calculator/__init__.py:94-97 | a line is rejected as blank exactly when it is empty or all whitespace |
| Lexing.JoinEnds | calculator/__init__.py:85 | words joined by single spaces neither start nor end with whitespace |
| Lexing.TokensOfJoin | calculator/__init__.py:92 | `split()` of words joined by single spaces gives the words back |
| Lexing.ParseJoinedWords | calculator/__init__.py:90-95 | a line of single-space-separated words that is not the shortcut calls its first word with the other words as arguments |
| Lexing.ParseAddExample | calculator/__init__.py:90-92 | `add 10 5` is the command `add` with the arguments `10` and `5` |
| Lexing.ParseQuitWithArgument | calculator/__init__.py:86-92 | `quit now` is not the shortcut but the command `quit` with the argument `now` |
| Lexing.ParseShortcutExample | calculator/__init__.py:85-86 | `  QUIT ` is the shortcut, because the test ignores case and surrounding whitespace |
| MenuCommand.Execute | calculator/plugins/menu/__init__.py:38-56 | the for loop over `sorted(keys)` prints the header, the hint (plugins copy only), one line per name in ascending order, then the quit line; a call with arguments is a `TypeError` before anything is printed |
| MenuCommand.Item | calculator/plugins/menu/__init__.py:53 | a name line is ` - ` followed by the name, plus one trailing space in the plugins copy and nothing more in the commands copy (calculator/commands/menu/__init__.py:41) |
| MenuCommand.Listing | calculator/plugins/menu/__init__.py:47-55 | everything the menu prints: the frame lines plus exactly one line per registered name |
| MenuCommand.Show | calculator/plugins/menu/__init__.py:38 | `execute(self)` raises exactly when given arguments, and then it is a `TypeError` with nothing printed |
| MenuCommand.ItemInjective | calculator/plugins/menu/__init__.py:53 | distinct names give distinct name lines |
| MenuCommand.FrameLinesAreNotItems | calculator/plugins/menu/__init__.py:47-55 | no header, hint or quit line can be mistaken for a name line |
| MenuCommand.ListingShape | calculator/plugins/menu/__init__.py:47-55 | the output is the header line (20 dashes), the hint line (plugins copy only), one ` - ` line per registered name, and the quit line last |
| MenuCommand.ItemLinePosition | calculator/plugins/menu/__init__.py:47-55 | a name line sits between frame and footer, at its name's position in the sorted list |
| MenuCommand.ListsLiveName | calculator/plugins/menu/__init__.py:51-53 | every registered name is listed |
| MenuCommand.NameLineAppearsOnce | calculator/plugins/menu/__init__.py:51-53 | a listed name is registered, and its line appears at one position only |
| MenuCommand.ListsEachNameOnce | calculator/plugins/menu/__init__.py:51-53 | a name is listed if and only if it is registered, and then exactly once |
| MenuCommand.ListsInAscendingOrder | calculator/plugins/menu/__init__.py:51 | a name on an earlier line sorts before the name on a later line |
| MenuCommand.EmptyMenu | calculator/commands/menu/__init__.py:39-42 | with an empty table only the frame is printed: header, hint and quit line (plugins copy), or header and quit line (commands copy) |
| Arithmetic.UnpackTwo | calculator/plugins/subtract/__init__.py:32 | `a, b = map(Decimal, args)` succeeds exactly for two parseable arguments, and then holds their values in order; it fails on conversion exactly when one of the first three arguments does not parse |
| Arithmetic.ValidateArgs | calculator/plugins/add/__init__.py:52-68 | true exactly for two arguments; otherwise it prints the exactly-two-arguments message |
| Arithmetic.Add | calculator/plugins/add/__init__.py:26-50 | never raises; with a count other than two it prints only the arity message; with two parseable arguments it prints their sum; with two arguments of which one does not parse it prints `Error: Invalid input` |
| Arithmetic.AddChecksArityFirst | calculator/commands/add/__init__.py:32-33 | with a count other than two, add (in either copy) prints the arity message and its output does not depend on parsing at all |
| Arithmetic.WrongCountEscapes | calculator/commands/multiply/__init__.py:27-32 | with a wrong count and no parse failure, subtract, multiply and divide (in every copy) raise an uncaught `ValueError`, while add prints its arity message |
| Arithmetic.Subtract | calculator/plugins/subtract/__init__.py:24-38 | two parseable arguments print the first minus the second; a conversion failure prints the invalid-numbers message; otherwise a wrong count raises an uncaught `ValueError` |
| Arithmetic.ThirdArgumentIsConverted | calculator/plugins/subtract/__init__.py:31-37 | with three arguments a bad third one is reported as invalid input before the count error; with four, a bad fourth one is never parsed and the `ValueError` escapes |
| Arithmetic.Multiply | calculator/plugins/multiply/__init__.py:24-48 | two parseable arguments print their product; a conversion failure prints the invalid-numbers message; otherwise a wrong count raises an uncaught `ValueError` |
| Arithmetic.DecimalDivide | calculator/plugins/divide/__init__.py:45 | decimal division gives a quotient exactly for a non-zero divisor, and then quotient times divisor is the dividend |
| Arithmetic.Divide | calculator/plugins/divide/__init__.py:25-53 | two parseable arguments print the zero-divisor message when the divisor is zero and otherwise print dividend over divisor; a conversion failure prints the invalid-numbers message; otherwise a wrong count raises an uncaught `ValueError` |
| Arithmetic.DivideNeverReachesZeroHandler | calculator/plugins/divide/__init__.py:41-53 | the `Cannot divide by zero.` handler never prints, and every printed quotient has a non-zero divisor and multiplies back to the dividend |
| Arithmetic.InvalidInputBeforeZeroCheck | calculator/pulgins/divide/__init__.py:33-34 | an unparseable argument is reported as invalid input even when the other argument is zero, in either position (in both copies of divide) |
| Commands.Invoke | calculator/commands/__init__.py:63 | calling a command runs it on exactly the given arguments, and a menu reads its handler's keys at the moment of the call |
| Commands.NoArguments | calculator/plugins/welcome/__init__.py:23-29 | a no-argument `execute` given arguments raises `TypeError` before printing anything; without arguments it runs its body |
| Commands.Perform | calculator/commands/__init__.py:63 | what `command.execute(*args)` does for each command (the arithmetic commands, the menu, welcome and quit, each in its own package); the menu, welcome and quit raise `TypeError` exactly when given arguments, since their `execute` takes only `self` |
| Commands.Dispatch | calculator/commands/__init__.py:62-65 | look the name up, call its command, catch `KeyError`: the outcome never carries a `KeyError` |
| Commands.ReportKeyError | calculator/commands/__init__.py:62-65 | a `KeyError` becomes the `No such command` line after what was already printed; any other outcome passes unchanged; the result never carries a `KeyError` |
| Commands.CommandHandler.constructor | calculator/commands/__init__.py:32-36 | a new handler has an empty table |
| Commands.CommandHandler.RegisterCommand | calculator/commands/__init__.py:38-46 | the name now maps to the command and every other entry is unchanged |
| Commands.CommandHandler.ExecuteCommand | calculator/commands/__init__.py:48-65 | an unknown name prints exactly the unknown-command line; a known name dispatches to its command with the live key set; the table is not modified |
| Commands.UnknownNameReported | calculator/commands/__init__.py:62-65 | an unregistered name prints `No such command: <name>` and raises nothing |
| Commands.RegisteredNameRunsItsCommand | calculator/commands/__init__.py:62-63 | a registered name runs its own command on the given arguments, and whatever else that command raises propagates |
| Commands.CommandsNeverRaiseKeyError | calculator/commands/__init__.py:62-65 | no command of the calculator raises `KeyError`, so the `except` fires only on a missing name |
| Commands.DispatchSeesLiveKeysOnlyThroughMenu | calculator/plugins/menu/__init__.py:51 | only the menu's outcome depends on the handler's key set |
| Commands.MenuWithoutArguments | calculator/plugins/menu/__init__.py:38-56 | the menu called without arguments prints the listing of the live names and raises nothing |
| Commands.RegisterTwiceThenExecute | calculator/commands/__init__.py:46 | after registering A and then B under one name, executing that name runs B |
| Commands.MenuSeesLaterRegistrations | calculator/plugins/menu/__init__.py:35 | a menu built before another command was registered still lists that command, because it keeps the handler and not a copy of its keys |
| Loader.Construct | calculator/__init__.py:64-68 | a class whose `__init__` takes `command_handler` receives the calculator's own handler; every other class is called with no argument and gives its own command (the add class an add command, and so on); a constructor error is reported as such |
| Loader.Instantiate | calculator/__init__.py:65-68 | a call fails exactly when the handler is passed to a constructor that does not take it or withheld from one that does, and the failure is a `TypeError` |
| Loader.LastSegment | calculator/__init__.py:70-71 | the fallback name is a dot-free suffix of the module name that starts right after a dot or at the start |
| Loader.RegisteredName | calculator/__init__.py:70-71 | a `command_name` attribute is the name used; without one the name is the dot-free suffix of the module name that starts right after a dot or at the start |
| Loader.LoadClass | calculator/__init__.py:62-74 | one class: only a constructor error other than `TypeError` sets the failure, and then the table and the printed lines stay as they were |
| Loader.LoadClasses | calculator/__init__.py:59-74 | the loop over one module's classes does nothing once the load has failed |
| Loader.LoadModules | calculator/__init__.py:54-74 | the loop over the modules does nothing once the load has failed |
| Loader.LastSegmentOfDotted | calculator/__init__.py:70-71 | the fallback name of `prefix.seg` is `seg` |
| Loader.LoadClassesKeepsMenusBound | calculator/__init__.py:59-72 | registering the classes of one module keeps every menu in the table bound to the calculator's handler |
| Loader.LoadKeepsMenusBound | calculator/__init__.py:54-72 | the whole load keeps every menu bound to the calculator's handler |
| Loader.LoadClassSkipsTypeError | calculator/__init__.py:62-74 | one class either stores its own instance under its chosen name, leaving every other entry alone, or, on a `TypeError`, leaves the table unchanged and prints one `Skipping` line; the load goes on |
| Loader.LoadClassesSkipsTypeErrors | calculator/__init__.py:59-74 | within a module, when constructors raise at most `TypeError`, every class is visited, the ones that build are registered, and each failing one prints one report line, in order |
| Loader.LoadClassesBuildsTable | calculator/__init__.py:59-72 | under the same condition, the module's classes leave exactly the table of their registrations, made in order |
| Loader.UnbuiltNameKeepsEntry | calculator/__init__.py:72 | a name no constructing class registers keeps its previous entry, or stays absent |
| Loader.LastBuiltWins | calculator/__init__.py:72 | a registered name holds the instance of the last constructing class registered under it |
| Loader.AllUnbuiltNameKeepsEntry | calculator/__init__.py:54-72 | across all modules, a name no constructing class registers keeps its previous entry, or stays absent |
| Loader.AllLastBuiltWins | calculator/__init__.py:54-72 | across all modules, a registered name holds the instance of the last constructing class registered under it, in module order and then class order |
| Loader.LoadSkipsTypeErrors | calculator/__init__.py:54-74 | the same for the whole load across modules: no failure, the registered names added, the table of all registrations made module by module, and the report lines in order |
| Loader.FatalErrorStopsLoad | calculator/__init__.py:62-74 | a constructor raising anything but `TypeError` ends the load: nothing after it is registered or reported |
| Calculator.ParseAll | calculator/__init__.py:85 | one parsed line per input line |
| Calculator.Executes | calculator/commands/__init__.py:48-65 | `execute_command` over a fixed table, with the menu seeing that table's names, never lets a `KeyError` out |
| Calculator.LineEffect | calculator/__init__.py:85-97 | one line makes a call exactly when it is a command line, and at most one; the shortcut ends the loop normally and a blank line never ends it |
| Calculator.Loop | calculator/__init__.py:84-97 | the loop reads no more lines than it is given, and makes at most one call per line read |
| Calculator.Session | calculator/__init__.py:84-97 | a session reads no more input lines than there are |
| Calculator.LoopStep | calculator/__init__.py:84-97 | one step of the loop: the run goes on with the effect of the current line, and stops there or moves to the next line |
| Calculator.Calculator.constructor | calculator/__init__.py:35-40 | a new calculator owns a fresh, empty handler |
| Calculator.Calculator.LoadPlugins | calculator/__init__.py:43-74 | the nested loops end in the state the load rules describe: the table, the `Skipping` lines and the escaping exception; every menu stays bound to this calculator's handler |
| Calculator.Calculator.RunCommand | calculator/__init__.py:95 | a dispatch from the loop has the outcome of `execute_command` over the current table, with the menu seeing that table's names |
| Calculator.Calculator.HandleLine | calculator/__init__.py:85-97 | the loop body does with input line `i` exactly what the per-line rules say |
| Calculator.Calculator.Start | calculator/__init__.py:76-97 | the banner, then the loop's output; the loop ends on the shortcut, on an exception no one catches, or on `EOFError` when the input runs out |
| Calculator.LineEffectCases | calculator/__init__.py:85-97 | the shortcut prints the farewell and ends without a call; a blank line prints the complaint and continues without a call; any other line makes exactly one call, with the first token as name and the other tokens as arguments |
| Calculator.UnknownCommandContinues | calculator/__init__.py:94-95 | an unknown name is reported and the loop goes on |
| Calculator.LoopCallsCommandLines | calculator/__init__.py:84-97 | the calls made are exactly one per command line read, in order |
| Calculator.LoopStopsAtFirstStop | calculator/__init__.py:84-97 | the loop reads up to and including the first line that stops it and no further; with no such line it reads everything and ends in `EOFError` |
| Calculator.QuitEndsLoop | calculator/__init__.py:84-88 | the loop ends normally exactly when the last line read is the shortcut; no earlier line is the shortcut; the last output line is the farewell |
| Scenarios.Packages | calculator/__init__.py:54-56 | one module descriptor per shipped package |
| Scenarios.LoadPackage | calculator/__init__.py:59-72 | a shipped package registers its one command under its package name |
| Scenarios.LoadPackages | calculator/__init__.py:54-72 | packages whose constructors do not raise load in order, each under its own name, and print nothing |
| Scenarios.ShippedTable | calculator/__init__.py:54-72 | registering the seven shipped packages in scan order gives the seven-command table |
| Scenarios.RepositoryPluginsLoad | calculator/__init__.py:43-74 | loading the shipped plugins into an empty handler gives the seven commands, with the menu bound to that handler, no report lines and no error |
| Scenarios.NewCalculator | calculator/__init__.py:35-41 | `Calculator()` ends with exactly `add`, `divide`, `menu`, `multiply`, `quit`, `subtract`, `welcome` registered |
| Scenarios.ParseQuitWord | calculator/__init__.py:86-88 | any capitalisation of `quit` is the shortcut |
| Scenarios.ParseOneWord | calculator/__init__.py:90-95 | a single word that is not the shortcut is a call with no arguments |
| Scenarios.ParseQuit | calculator/__init__.py:86-88 | `quit` is the shortcut |
| Scenarios.CommandThenQuit | calculator/__init__.py:84-97 | a command that raises nothing, then the shortcut: what the command prints, then the farewell, after one call and two lines |
| Scenarios.QuitSession | tests/test_calculator.py:17-28 | the input `quit` alone prints only the farewell and makes no call |
| Scenarios.UnknownNameOutcome | calculator/commands/__init__.py:62-65 | an unregistered name called from the loop prints the unknown-command line |
| Scenarios.UnknownCommandSession | tests/test_calculator.py:31-45 | an unregistered word then the shortcut: the unknown-command line, then the farewell |
| Scenarios.ExitCommandTest | tests/test_calculator.py:17-29 | the loaded calculator fed `quit` prints the banner and then `Exiting calculator. Goodbye!` and ends normally |
| Scenarios.UnknownCommandTest | tests/test_calculator.py:31-46 | the loaded calculator fed `unknown_command`, `quit` prints the banner, `No such command: unknown_command`, the farewell, and ends normally |
| Scenarios.MenuOutcome | calculator/plugins/menu/__init__.py:38-56 | `menu` called from the loop prints the listing of the whole table |
| Scenarios.MenuSession | calculator/plugins/menu/__init__.py:47-55 | `menu` then `quit`: the listing of every registered name, then the farewell |
| Scenarios.AddOutcome | calculator/plugins/add/__init__.py:39-47 | `add` with `10` and `5` on the loaded calculator prints the sum 15 |
| Scenarios.AddSession | calculator/__init__.py:90-95 | `add 10 5` then `quit` prints the sum line, then the farewell |
| Scenarios.CommandRaises | calculator/__init__.py:94-95 | a command raising anything but `KeyError` ends the loop on that line; the next line is never read |
| Scenarios.QuitNowOutcome | calculator/plugins/quit/__init__.py:24-31 | the quit command called with an argument raises `TypeError`, since its `execute` takes none |
| Scenarios.QuitWithArgumentSession | calculator/__init__.py:86-95 | `quit now` dispatches to the quit command, whose `TypeError` escapes and ends the loop before the next line |

## Left out

- Reflection and imports are left out: `pkgutil.iter_modules`, `importlib.import_module`, `dir`, `getattr` on the module, `isinstance`/`issubclass`, and `inspect.signature`. Each module is a given descriptor listing the `Command` subclasses found in it, with the parameter test derived from the class kind. Only the menu's `__init__` takes `command_handler`.
- Scenarios.SHIPPED takes the package scan order as alphabetical. The loader lemmas in `Loader` hold for any order.
- Console I/O is left out. `input()` is a given list of lines, and the `>>> ` prompt is not part of the printed trace. `EOFError` when the list runs out is modelled as an uncaught exception, and `KeyboardInterrupt` is not modelled.
- Decimal internals are left out: context precision, rounding, exponent limits, special values, and the text form of a result. Parsing is an abstract parameter, and arithmetic is exact on `real`.
- All `logging` calls are left out, because they do not affect what is printed or raised.
- `sys.exit("Bye Bye")` in the quit command becomes an escaping `SystemExit` exception; process termination is not modelled.
- Calculator.Calculator.constructor stops before `load_plugins`, which is the separate method `LoadPlugins`; `Scenarios.NewCalculator` performs both steps.
- Loader.RegisteredName takes a `command_name` attribute to be a string, whatever `getattr` would return.
- Scenarios.ExitCommandTest feeds one `quit` line where the test's patched `input` would return `quit` forever. The loop reads only that one line.
- tests/test_commands.py is not part of this model. It tests float-based mock commands that it defines itself, not the repository's commands.
- main.py is not part of this model. It only builds a `Calculator` and calls `start`.
- The code is followed where the docstrings promise more. The docstring of `start` (calculator/__init__.py:80-81) says the loop runs until `quit` is typed, and the subtract docstring (calculator/plugins/subtract/__init__.py:28-29) says invalid inputs get an error message, but `execute_command` catches only `KeyError` (calculator/commands/__init__.py:62-65). A `ValueError` from subtract, multiply or divide with a wrong argument count, or a `TypeError` from arguments given to menu, welcome or quit, escapes `start` and ends the session.
