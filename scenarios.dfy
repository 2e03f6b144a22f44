/** The library's test scenarios, replayed on the class and on the
    functional model. Each class scenario is stated for any format and
    any clock reading; a lemma then instantiates it with the format "%L: "
    that the tests use, giving the exact text they expect. */
module Scenarios {
  import opened Levels
  import opened LoggerSpec
  import Logging
  import Render

  /** The tests' format: the level name, a colon and a space. */
  lemma ColonHeader(name: string, time: string)
    ensures Header("%L: ", name, time) == name + ": "
  {
    assert Header(" ", name, time) == " ";
    assert Header(": ", name, time) == ": ";
    assert Header("L: ", name, time) == name + ": ";
  }

  /** Threshold Debug: three lines at three levels, each closed by the next
      selection, the last left open. */
  method BasicLogging(format: string, time: string) returns (text: string)
    ensures text == Header(format, "Info", time) + "Info message" + "\n"
                    + Header(format, "Debug", time) + "Debug message" + "\n"
                    + Header(format, "Error", time) + "Error message"
  {
    var logger := new Logging.Logger(Debug, format);
    var info, debug, error := Header(format, "Info", time), Header(format, "Debug", time), Header(format, "Error", time);
    OpenLine(logger, Info, "Info message", time);
    assert logger.out == info + "Info message";
    OpenLine(logger, Debug, "Debug message", time);
    assert logger.out == info + "Info message" + "\n" + debug + "Debug message";
    OpenLine(logger, Error, "Error message", time);
    text := logger.out;
  }

  /** `logger << level << message` at a written level: the open line, if
      any, is ended, then a new line with its header and the message. */
  method OpenLine(logger: Logging.Logger, level: Level, message: string, time: string)
    requires logger.Valid() && AtLeast(level, logger.printLevel)
    modifies logger
    ensures logger.out == old(logger.out) + (if old(logger.lineStarted) then "\n" else "")
                          + Header(logger.format, Name(level), time) + message
    ensures logger.Valid() && logger.lineStarted && logger.printLevel == old(logger.printLevel)
  {
    logger.SelectLevel(level);
    logger.PutString(message, time);
  }

  /** With the tests' format the first scenario writes exactly the expected text. */
  lemma BasicLoggingText(time: string)
    ensures Header("%L: ", "Info", time) + "Info message" + "\n"
            + Header("%L: ", "Debug", time) + "Debug message" + "\n"
            + Header("%L: ", "Error", time) + "Error message"
         == "Info: Info message\nDebug: Debug message\nError: Error message"
  {
    ColonHeader("Info", time);
    ColonHeader("Debug", time);
    ColonHeader("Error", time);
    BasicLoggingLiterals();
  }

  lemma BasicLoggingLiterals()
    ensures ("Info" + ": ") + "Info message" + "\n" + ("Debug" + ": ") + "Debug message" + "\n"
            + ("Error" + ": ") + "Error message"
         == "Info: Info message\nDebug: Debug message\nError: Error message"
  {
    assert ("Info" + ": ") + "Info message" == "Info: Info message";
    assert "Info: Info message" + "\n" == "Info: Info message\n";
    assert "Info: Info message\n" + ("Debug" + ": ") == "Info: Info message\nDebug: ";
    assert "Info: Info message\nDebug: " + "Debug message" == "Info: Info message\nDebug: Debug message";
    assert "Info: Info message\nDebug: Debug message" + "\n" == "Info: Info message\nDebug: Debug message\n";
    assert "Info: Info message\nDebug: Debug message\n" + ("Error" + ": ")
        == "Info: Info message\nDebug: Debug message\nError: ";
    assert "Info: Info message\nDebug: Debug message\nError: " + "Error message"
        == "Info: Info message\nDebug: Debug message\nError: Error message";
  }

  /** Threshold Error: only the Error line is written, and the filtered lines
      leave no newline behind. */
  method LevelFiltering(format: string, time: string) returns (text: string)
    ensures text == Header(format, "Error", time) + "Error message"
  {
    var logger := new Logging.Logger(Error, format);
    logger.SelectLevel(Info);
    logger.PutString("Info message", time);
    logger.SelectLevel(Warning);
    logger.PutString("Warning message", time);
    logger.SelectLevel(Error);
    logger.PutString("Error message", time);
    text := logger.out;
  }

  /** With the tests' format the filtering scenario writes exactly "Error: Error message". */
  lemma LevelFilteringText(time: string)
    ensures Header("%L: ", "Error", time) + "Error message" == "Error: Error message"
  {
    ColonHeader("Error", time);
    assert "Error" + ": " + "Error message" == "Error: Error message";
  }

  /** Strings, an int and a bool on one line share one header. The test's
      last value, a double, is not modelled; the scenario stops before it. */
  method LogData(format: string, time: string) returns (text: string)
    ensures text == Header(format, "Info", time) + "Info message with sample integer " + "42" + ", a bool " + "true"
                    + " and a double "
  {
    var logger := new Logging.Logger(Info, format);
    var info := Header(format, "Info", time);
    OpenLine(logger, Info, "Info message with sample integer ", time);
    assert logger.out == info + "Info message with sample integer ";
    MoreData(logger, 42, ", a bool ", true, " and a double ", time);
    Render.FortyTwo();
    text := logger.out;
  }

  /** `<< i << s << b << t` on an open line: each value's text, in order, with
      no second header. */
  method MoreData(logger: Logging.Logger, i: Render.int32, s: string, b: bool, t: string, time: string)
    requires logger.Valid() && logger.lineStarted
    modifies logger
    ensures logger.out == old(logger.out) + Render.IntToDecimal(i as int) + s + Render.BoolText(b) + t
  {
    logger.PutInt(i, time);
    logger.PutString(s, time);
    logger.PutBool(b, time);
    logger.PutString(t, time);
  }

  /** With the tests' format the data scenario writes exactly the expected text. */
  lemma LogDataText(time: string)
    ensures Header("%L: ", "Info", time) + "Info message with sample integer " + "42" + ", a bool " + "true"
            + " and a double "
         == "Info: " + "Info message with sample integer 42, a bool true" + " and a double "
  {
    ColonHeader("Info", time);
    LogDataLiterals();
    assert "Info" + ": " == "Info: ";
  }

  lemma LogDataLiterals()
    ensures "Info message with sample integer " + "42" + ", a bool " + "true"
         == "Info message with sample integer 42, a bool true"
  {
    assert "Info message with sample integer " + "42" == "Info message with sample integer 42";
    assert "Info message with sample integer 42" + ", a bool " == "Info message with sample integer 42, a bool ";
  }

  /** With the default constructor arguments the header is the bracketed level
      name, a space and the time. */
  method DefaultFormatLine(time: string) returns (text: string)
    ensures text == "[Info] " + time + "message"
  {
    var logger := new Logging.Logger();
    text := FirstLine(logger, "message", time);
    DefaultInfoHeader(time);
  }

  /** The first message on a new logger at a written level: its header, then the message. */
  method FirstLine(logger: Logging.Logger, message: string, time: string) returns (text: string)
    requires logger.Valid() && logger.out == "" && !logger.lineStarted
    requires AtLeast(logger.currentLevel, logger.printLevel)
    modifies logger
    ensures text == Header(logger.format, Name(old(logger.currentLevel)), time) + message
  {
    logger.PutString(message, time);
    text := logger.out;
  }

  /** The default header of an Info line. */
  lemma DefaultInfoHeader(time: string)
    ensures Header(DefaultFormat, "Info", time) == "[Info] " + time
  {
    DefaultHeader("Info", time);
    assert "[" + "Info" + "] " == "[Info] ";
  }

  /** Two operations in a row. */
  lemma RunTwo(s: State, a: Op, b: Op)
    ensures Run(s, [a, b]) == Step(Step(s, a), b)
  {
    assert [a, b][0] == a && [a, b][1..] == [b];
    assert Run(Step(s, a), [b]) == Run(Step(Step(s, a), b), []);
  }

  /** The first scenario as a chain on the functional model, for any format
      and any clock readings: the three shown lines, in order. */
  lemma BasicLoggingRun(format: string, t1: string, t2: string, t3: string)
    ensures Run(Init(Debug, format),
              [Select(Info), Put("Info message", t1), Select(Debug), Put("Debug message", t2),
               Select(Error), Put("Error message", t3)]).out
         == Header(format, "Info", t1) + "Info message" + "\n"
            + Header(format, "Debug", t2) + "Debug message" + "\n"
            + Header(format, "Error", t3) + "Error message"
  {
    var a, b, c := [Select(Info), Put("Info message", t1)], [Select(Debug), Put("Debug message", t2)],
                   [Select(Error), Put("Error message", t3)];
    var s0 := Init(Debug, format);
    var s1 := Run(s0, a);
    RunTwo(s0, a[0], a[1]);
    assert s1 == s0.(current := Info, lineStarted := true, out := Header(format, "Info", t1) + "Info message");
    var s2 := Run(s1, b);
    RunTwo(s1, b[0], b[1]);
    assert s2 == s1.(current := Debug, out := s1.out + "\n" + Header(format, "Debug", t2) + "Debug message");
    var s3 := Run(s2, c);
    RunTwo(s2, c[0], c[1]);
    assert s3.out == s2.out + "\n" + Header(format, "Error", t3) + "Error message";
    RunAppend(s0, a, b);
    RunAppend(s0, a + b, c);
    assert a + b + c == [Select(Info), Put("Info message", t1), Select(Debug), Put("Debug message", t2),
                         Select(Error), Put("Error message", t3)];
  }

  /** A visible line followed by a selection of a filtered level still ends
      with a newline: the newline is written when the level changes. */
  lemma TrailingNewline(format: string, time: string)
    ensures Run(Init(Info, format), [Put("a", time), Select(Debug)]).out
         == Header(format, "Info", time) + "a" + "\n"
  {
    RunTwo(Init(Info, format), Put("a", time), Select(Debug));
  }
}
