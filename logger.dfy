/** The logger object. It appends text to a sink, keeps a fixed print level
    (the threshold), the level of the line being written, whether that line
    has begun, and a constant header format. Each streaming operation is
    proved to change the state exactly as the function of the same name in
    module LoggerSpec does. */
module Logging {
  import opened Levels
  import opened Render
  import LoggerSpec

  class Logger {
    /** Everything this logger has written to its sink, in order. */
    var out: string
    /** The minimum level whose content is written. */
    var printLevel: Level
    /** The level of the line being written. */
    var currentLevel: Level
    /** Whether the header of the current line has been written. */
    var lineStarted: bool
    /** The header format: 'L' is the level name, 'T' the time, '%' is skipped. */
    const format: string

    /** The fields as a value of the functional model. */
    function Snapshot(): LoggerSpec.State
      reads this
    {
      LoggerSpec.State(out, printLevel, currentLevel, lineStarted, format)
    }

    /** A line is open only at a level that is written. */
    ghost predicate Valid()
      reads this
    {
      LoggerSpec.Valid(Snapshot())
    }

    /** A logger with nothing written, the current level at the threshold and
        no line open. The threshold defaults to Info and the format to "[%L] %T". */
    constructor (level: Level := LoggerSpec.DefaultThreshold, format: string := LoggerSpec.DefaultFormat)
      ensures out == "" && printLevel == level && currentLevel == level && !lineStarted
      ensures this.format == format
      ensures Valid() && Snapshot() == LoggerSpec.Init(level, format)
    {
      out := "";
      printLevel := level;
      currentLevel := level;
      lineStarted := false;
      this.format := format;
    }

    /** `logger << level`: ends a visible open line with a newline, then makes
        `level` current with no line open. */
    method SelectLevel(level: Level)
      modifies this`out, this`currentLevel, this`lineStarted
      ensures out == old(out) + (if AtLeast(old(currentLevel), printLevel) && old(lineStarted) then "\n" else "")
      ensures currentLevel == level && !lineStarted
      ensures Valid() && Snapshot() == LoggerSpec.SelectLevel(old(Snapshot()), level)
    {
      if AtLeast(currentLevel, printLevel) && lineStarted {
        out := out + "\n";
      }
      currentLevel := level;
      lineStarted := false;
    }

    /** `logger << str` for a string or a C string: the text itself. `time` is
        what the clock reads if the header is written. */
    method PutString(str: string, time: string)
      requires Valid()
      modifies this`out, this`lineStarted
      ensures !AtLeast(currentLevel, printLevel) ==> out == old(out) && lineStarted == old(lineStarted)
      ensures AtLeast(currentLevel, printLevel) && !old(lineStarted) ==>
        out == old(out) + LoggerSpec.Header(format, Name(currentLevel), time) + str
      ensures AtLeast(currentLevel, printLevel) && old(lineStarted) ==> out == old(out) + str
      ensures AtLeast(currentLevel, printLevel) ==> lineStarted
      ensures Valid() && Snapshot() == LoggerSpec.PrintMessage(old(Snapshot()), str, time)
    {
      PrintMessage(str, time);
    }

    /** `logger << value` for an int: its decimal text. */
    method PutInt(value: int32, time: string)
      requires Valid()
      modifies this`out, this`lineStarted
      ensures !AtLeast(currentLevel, printLevel) ==> out == old(out) && lineStarted == old(lineStarted)
      ensures AtLeast(currentLevel, printLevel) && !old(lineStarted) ==>
        out == old(out) + LoggerSpec.Header(format, Name(currentLevel), time) + IntToDecimal(value as int)
      ensures AtLeast(currentLevel, printLevel) && old(lineStarted) ==> out == old(out) + IntToDecimal(value as int)
      ensures AtLeast(currentLevel, printLevel) ==> lineStarted
      ensures Valid() && Snapshot() == LoggerSpec.PrintMessage(old(Snapshot()), IntToDecimal(value as int), time)
    {
      PrintMessage(IntToDecimal(value as int), time);
    }

    /** `logger << value` for a bool: "true" or "false". */
    method PutBool(value: bool, time: string)
      requires Valid()
      modifies this`out, this`lineStarted
      ensures !AtLeast(currentLevel, printLevel) ==> out == old(out) && lineStarted == old(lineStarted)
      ensures AtLeast(currentLevel, printLevel) && !old(lineStarted) ==>
        out == old(out) + LoggerSpec.Header(format, Name(currentLevel), time) + BoolText(value)
      ensures AtLeast(currentLevel, printLevel) && old(lineStarted) ==> out == old(out) + BoolText(value)
      ensures AtLeast(currentLevel, printLevel) ==> lineStarted
      ensures Valid() && Snapshot() == LoggerSpec.PrintMessage(old(Snapshot()), BoolText(value), time)
    {
      PrintMessage(BoolText(value), time);
    }

    /** Writes the clock's text, which the caller supplies. */
    method PrintTime(time: string)
      modifies this`out
      ensures out == old(out) + time
    {
      out := out + time;
    }

    /** Writes the name of the current level. */
    method PrintLevel()
      modifies this`out
      ensures out == old(out) + Name(currentLevel)
    {
      out := out + Name(currentLevel);
    }

    /** Writes the header, one format character at a time. */
    method PrintHeader(time: string)
      modifies this`out
      ensures out == old(out) + LoggerSpec.Header(format, Name(currentLevel), time)
    {
      ghost var name := Name(currentLevel);
      for i := 0 to |format|
        invariant out == old(out) + LoggerSpec.Header(format[..i], name, time)
      {
        ghost var before := out;
        var c := format[i];
        if c == '%' {
        } else if c == 'L' {
          PrintLevel();
        } else if c == 'T' {
          PrintTime(time);
        } else {
          out := out + [c];
        }
        assert out == before + LoggerSpec.Expand(c, name, time);
        LoggerSpec.HeaderSnoc(format[..i], c, name, time);
        LoggerSpec.ConcatAssoc(old(out), LoggerSpec.Header(format[..i], name, time), LoggerSpec.Expand(c, name, time));
        assert format[..i + 1] == format[..i] + [c];
      }
      assert format[..|format|] == format;
    }

    /** Writes a message at the current level: nothing below the threshold;
        otherwise the header first if the line has not begun, then the message. */
    method PrintMessage(message: string, time: string)
      requires Valid()
      modifies this`out, this`lineStarted
      ensures !AtLeast(currentLevel, printLevel) ==> out == old(out) && lineStarted == old(lineStarted)
      ensures AtLeast(currentLevel, printLevel) && !old(lineStarted) ==>
        out == old(out) + LoggerSpec.Header(format, Name(currentLevel), time) + message
      ensures AtLeast(currentLevel, printLevel) && old(lineStarted) ==> out == old(out) + message
      ensures AtLeast(currentLevel, printLevel) ==> lineStarted
      ensures Valid() && Snapshot() == LoggerSpec.PrintMessage(old(Snapshot()), message, time)
    {
      if AtLeast(currentLevel, printLevel) {
        if !lineStarted {
          PrintHeader(time);
          lineStarted := true;
        }
        out := out + message;
      }
    }
  }
}
