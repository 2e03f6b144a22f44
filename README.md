# StormByte Logger, modelled in Dafny

The library is a stream-style logger. A `Logger` writes to a sink it does not own. It keeps
a print level (the threshold), the level of the line being written, a flag saying whether
that line has begun, and a constant header format. The caller pushes values into it with
`<<`:

- pushing a `Level` ends a visible open line with a newline and makes that level current;
- pushing a string, C string, `int` or `bool` writes its text, but only at a level at or
  above the threshold. The first value written on a line is preceded by a header rendered
  from the format.

The model has five modules, one file each:

- `level.dfy`, module `Levels`: the `Level` enumeration, its underlying values and order,
  and `GetLevelAsString`. The out-of-range branch is modelled on raw integers.
- `render.dfy`, module `Render`: how an `int` (32 bits) and a `bool` become text. Decimal
  rendering is proved against a parser: the text of every integer reads back as that integer.
- `logger_spec.dfy`, module `LoggerSpec`: the behaviour as functions on values. It covers
  header rendering, the logger's state, each streaming operation as a state transition, and
  `Run`, which applies a chain `logger << a << b << ...` in order. It also gives an
  independent line-by-line description of the text a chain writes (`Split`, `Emit`).
  `RunFromInit` proves that the transitions write exactly that text.
- `logger.dfy`, module `Logging`: the `Logger` class. Its fields are updated in place. The
  sink is a `string` field `out` that is only ever appended to. `format` is a `const`, and
  the threshold is outside every method's `modifies` clause. `PrintHeader` is the loop over
  the format, proved against `LoggerSpec.Header`. Each streaming method is proved to change
  the fields exactly as the `LoggerSpec` function does.
- `scenarios.dfy`, module `Scenarios`: the library's own test scenarios, replayed on the class
  and on the functional model.

The header loop is modelled as the code is written. The comment on the format field
(lib/logger/logger.hxx:127) names `%L` and `%T` as the placeholders for level and time. The
loop itself looks at one character at a time:

- it skips every `%`;
- it replaces every `L` with the level name and every `T` with the time, whether or not a
  `%` came before;
- it copies every other character, including the one after a `%`.

So a bare `L` or `T` in literal text is replaced too, and `"%X"` renders as `"X"`. The
model follows the loop (`LoggerSpec.LevelReplaced`, `LoggerSpec.TimeReplaced`,
`LoggerSpec.EscapeKeepsNext`).

The clock is not modelled. Every method that may write a header takes a `time` string: the
text the clock would give, in `DD/MM/YYYY HH:MM:SS` form, at that call.

## Model

| member | source | states |
|---|---|---|
| `Levels.Value` | lib/logger/level.hxx:14-21 | each enumerator's underlying value lies in 0..5 (Debug is 0, each next one adds 1) |
| `Levels.FromValue` | lib/logger/level.hxx:14-21 | an integer names an enumerator exactly when it lies in 0..5, and then that enumerator has it as its value |
| `Levels.ValueRoundTrip` | lib/logger/level.hxx:14-21 | every level is recovered from its underlying value, so no two levels share one |
| `Levels.TotalOrder` | lib/logger/level.hxx:14-21 | comparing levels by underlying value is reflexive, total, antisymmetric and transitive |
| `Levels.DeclarationOrder` | lib/logger/level.hxx:15-20 | Debug < Warning < Notice < Info < Error < Fatal, from 0 to 5 |
| `Levels.AtLeast` | lib/logger/level.hxx:14-21 | a level is at least another exactly when it is the same level or has a greater underlying value, which is how `>=` compares the enumerators (used at lib/logger/logger.cxx:13 and 82) |
| `Levels.Name` | lib/logger/level.hxx:28-34 | the name of every level is non-empty and is never "Unknown" |
| `Levels.NameOfValue` | lib/logger/level.hxx:27-37 | the name is "Unknown" exactly for values outside 0..5; for 0..5 it is the enumerator's name; it is never empty |
| `Levels.NamesDistinct` | lib/logger/level.hxx:29-34 | different levels have different names, and naming a level through its value gives its own name |
| `Render.NatToDecimal` | lib/logger/logger.cxx:31-34 | the text of a natural number is a canonical numeral (digits only, no leading zero) and is "0" exactly for zero |
| `Render.IntToDecimal` | lib/logger/logger.cxx:31-34 | the text of an int starts with '-' exactly when the int is negative, followed by a canonical non-zero numeral |
| `Render.BoolText` | lib/logger/logger.cxx:42 | a bool is written as "true" exactly when it is true and as "false" exactly when it is false |
| `Render.NatRoundTrip` | lib/logger/logger.cxx:31-34 | parsing the decimal text of a number gives the number back |
| `Render.NumeralRoundTrip` | lib/logger/logger.cxx:31-34 | every canonical numeral is the text of the number it denotes |
| `Render.IntRoundTrip` | lib/logger/logger.cxx:31-34 | every integer's text, in particular every 32-bit int's, parses back to that integer |
| `Render.IntTextInjective` | lib/logger/logger.cxx:31-34 | different integers are written as different texts |
| `Render.FortyTwo` | lib/logger/logger.cxx:31-34 | the integer 42 is written as "42" |
| `LoggerSpec.ExpandKinds` | lib/logger/logger.cxx:64-76 | one format character (`Expand`) writes nothing, one character, the level name or the time; it writes nothing exactly for '%' or an empty name or time; it writes a '%' only if the name or the time holds one |
| `LoggerSpec.HeaderDropsEscapes` | lib/logger/logger.cxx:62-79 | the header (`Header`, the loop over the format) never holds a '%' unless the level name or the time does: every '%' of the format is consumed |
| `LoggerSpec.HeaderAppend` | lib/logger/logger.cxx:62-79 | rendering is character by character: the header of a concatenation is the concatenation of the headers |
| `LoggerSpec.HeaderOfPlain` | lib/logger/logger.cxx:74-76 | a format containing no '%', 'L' or 'T' renders as itself |
| `LoggerSpec.HeaderLength` | lib/logger/logger.cxx:62-79 | header length = format length, minus one for every '%', 'L' and 'T', plus the name's length per 'L' and the time's length per 'T' |
| `LoggerSpec.EscapeKeepsNext` | lib/logger/logger.cxx:64-66 | a '%' is dropped and the ordinary character after it is kept; "%X" renders as "X" |
| `LoggerSpec.LevelReplaced` | lib/logger/logger.cxx:63-70 | at any position, an 'L' and a "%L" are both replaced by the level name, and the rest of the format renders as before |
| `LoggerSpec.TimeReplaced` | lib/logger/logger.cxx:63-73 | at any position, a 'T' and a "%T" are both replaced by the time, and the rest of the format renders as before |
| `LoggerSpec.BareLReplaced` | lib/logger/logger.cxx:68-70 | example: the format "L%L" renders as the level name twice |
| `LoggerSpec.DefaultHeader` | lib/logger/logger.hxx:24 | the default format "[%L] %T" renders as "[" + name + "] " + time |
| `LoggerSpec.Init` | lib/logger/logger.cxx:9-10 | a new logger has written nothing, has no open line, its current level passes its threshold, and it is in a valid state |
| `LoggerSpec.SelectLevel` | lib/logger/logger.cxx:12-19 | selecting a level leaves a valid state with that level current, only appends to the output, and keeps threshold and format |
| `LoggerSpec.PrintMessage` | lib/logger/logger.cxx:81-89 | writing a message keeps a valid state valid, only appends to the output, and keeps threshold, format and current level |
| `LoggerSpec.SelectLevelEffect` | lib/logger/logger.cxx:12-19 | selecting a level appends exactly "\n" iff the old level passed the threshold and a line was open, and nothing otherwise; afterwards the level is the new one, no line is open, and the threshold and format are unchanged |
| `LoggerSpec.PrintMessageEffect` | lib/logger/logger.cxx:81-89 | below the threshold a message changes nothing; at or above it, the output grows by header + message when no line was open and by the message alone when one was, and the line is then open |
| `LoggerSpec.SelectTwice` | lib/logger/logger.cxx:12-19 | two selections in a row act as the second alone, apart from the newline the first may write: no empty line appears |
| `LoggerSpec.RunAppend` | lib/logger/logger.hxx:55-85 | each operator returns the same logger, so a chain a << b is the first part applied and then the second |
| `LoggerSpec.RunAppendOnly` | lib/logger/logger.cxx:12-19 | after any chain the old output is a prefix of the new, the threshold and the format are unchanged, and a line is open only at a level that passes |
| `LoggerSpec.FilteredMessagesSilent` | lib/logger/logger.cxx:81-82 | while the current level is below the threshold, any number of messages leave the whole state unchanged |
| `LoggerSpec.Split` | lib/logger/logger.cxx:12-19 | cutting a chain into lines gives at least one line, and the first line is at the current level |
| `LoggerSpec.Joined` | lib/logger/logger.cxx:81-89 | a message joins the first line without changing the number of lines or that line's level |
| `LoggerSpec.RunWrites` | lib/logger/logger.cxx:12-19 | from any valid state, a chain appends the rest of the open line, then every shown line of the chain in order |
| `LoggerSpec.RunFromInit` | lib/logger/logger.cxx:9-19 | on a new logger, a chain writes exactly its shown lines in order (lines at a passing level holding at least one message). Each line is its header, timed by its first message, then its messages. A line ends with "\n" exactly when a later selection closed it |
| `Logging.Logger.constructor` | lib/logger/logger.cxx:9-10 | a new logger has written nothing, its current level equals the threshold and no line is open; threshold and format default to Info and "[%L] %T" |
| `Logging.Logger.SelectLevel` | lib/logger/logger.cxx:12-19 | appends "\n" exactly when the old level passed and a line was open; then the level is the new one and no line is open; the threshold and format are not touched |
| `Logging.Logger.PutString` | lib/logger/logger.cxx:21-29 | a string or C string is written as itself: nothing below the threshold, after the header when no line was open, alone when one was; the state changes as the message transition says |
| `Logging.Logger.PutInt` | lib/logger/logger.cxx:31-34 | an int is written as its decimal text, with the same three cases and the effect of the message transition |
| `Logging.Logger.PutBool` | lib/logger/logger.cxx:41-44 | a bool is written as "true" or "false", with the same three cases and the effect of the message transition |
| `Logging.Logger.PrintTime` | lib/logger/logger.cxx:46-56 | appends the clock's text and nothing else |
| `Logging.Logger.PrintLevel` | lib/logger/logger.cxx:58-60 | appends the name of the current level and nothing else |
| `Logging.Logger.PrintHeader` | lib/logger/logger.cxx:62-79 | the loop over the format appends exactly the rendered header for the current level's name and the time |
| `Logging.Logger.PrintMessage` | lib/logger/logger.cxx:81-89 | below the threshold nothing changes; otherwise the header is written first when no line was open, then the message, and the line is open |
| `Scenarios.ColonHeader` | test/logger_test.cxx:12 | the tests' format "%L: " renders as the level name followed by ": " |
| `Scenarios.BasicLogging` | test/logger_test.cxx:10-21 | with threshold Debug, the Info, Debug and Error lines are all written, each closed by the next selection, the last left open |
| `Scenarios.BasicLoggingText` | test/logger_test.cxx:18 | with the format "%L: " that text is exactly "Info: Info message\nDebug: Debug message\nError: Error message" |
| `Scenarios.LevelFiltering` | test/logger_test.cxx:24-35 | with threshold Error only the Error line is written, and the filtered lines leave no newline |
| `Scenarios.LevelFilteringText` | test/logger_test.cxx:32 | with the format "%L: " that text is exactly "Error: Error message" |
| `Scenarios.LogData` | test/logger_test.cxx:38-51 | strings, the int 42 and the bool true on one line, followed by the string " and a double ", share one header and are written in order |
| `Scenarios.LogDataText` | test/logger_test.cxx:48 | with the format "%L: " that text is exactly "Info: Info message with sample integer 42, a bool true and a double ", the expected text without the double's digits |
| `Scenarios.DefaultFormatLine` | lib/logger/logger.hxx:24 | a logger built with default arguments writes an Info message as "[Info] " + time + message |
| `Scenarios.DefaultInfoHeader` | lib/logger/logger.hxx:24 | the default format renders an Info header as "[Info] " followed by the time |
| `Scenarios.BasicLoggingRun` | test/logger_test.cxx:12-18 | the first test as a chain on the functional model, for any format and clock readings: the three lines in the order they were selected |
| `Scenarios.TrailingNewline` | lib/logger/logger.cxx:12-19 | a written Info line followed by a selection of the filtered level Debug is ended by "\n" at once, even if nothing follows |

## Left out

- The clock (lib/logger/logger.cxx:46-56: `system_clock`, `localtime`/`localtime_s`, `put_time`) is I/O. Its output is a `time` string parameter. A header takes one reading, so a format naming 'T' twice does not model two readings that straddle a second boundary.
- The `double` overload (lib/logger/logger.cxx:36-39) is left out: `std::to_string` on floating point is not modelled. So the data test is replayed up to and including the string " and a double ", and stops before the double value itself.
- `std::endl` flushes the sink; only its '\n' character is modelled.
- The sink is the text this logger has written, starting empty. Text already in the sink, or written to it by others, is not modelled. Nor is the reference semantics of `std::ostream&`.
- Copy and move constructors and assignment (lib/logger/logger.hxx:29-44) are language plumbing. They are not modelled, so the threshold is fixed from construction on.
- `operator<<` returns `*this`. The class methods return nothing, and chaining is sequential calls on one object (`LoggerSpec.RunAppend`).
- The `std::string` and `const char*` overloads do the same thing and are one method, `PutString`. A null `char*` is not modelled.
- lib/logger/visibility.h holds symbol-export macros only. test/test_handlers.h holds assertion macros. The console test (test/logger_test.cxx:54-61) writes to standard output.
- `Levels.Name` covers only the six enumerators. A level value outside them (a cast integer) is modelled by `Levels.NameOfValue` on the raw value, because `Level` here is a closed datatype.
- `Logging.Logger` and `LoggerSpec.State` only hold one of the six levels. In C++ a `static_cast<Level>(n)` with `n` outside 0..5 can be selected or used as the threshold. It is then compared by its raw value and printed as "Unknown". That case is not modelled for the logger.
