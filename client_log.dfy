/**
 * The client's logger (Client/Log.cpp): level centring, the caller's file
 * name, the entry layout, and the routing of each entry to the console and
 * to the log file. The clock, colours, the mutex and the file stream are
 * abstracted: the timestamp and whether opening the file succeeds are inputs,
 * and the console and the file are sequences of the lines written to them.
 */
module ClientLog {
  import opened Wrappers
  import opened Text
  import opened LogLevels
  import ServerDirLogger

  /** The default `width` of `log_level_to_string`, and the `std::setw` of `log_message`. */
  const DEFAULT_LEVEL_WIDTH := 7

  /** C++ `int` division, which truncates toward zero. */
  function TruncatingHalf(n: int): int {
    if n >= 0 then n / 2 else -((-n) / 2)
  }

  /**
   * `log_level_to_string`: the name centred in `width`, the odd space on the
   * right. A name longer than `width` makes one of the two space counts
   * negative, and `std::string(count, ' ')` then throws: `None`.
   */
  function LevelToString(level: LogLevel, width: int): (r: Option<string>)
    ensures r.Some? <==> width >= |LevelName(level)|
    ensures r.Some? ==> |r.value| == width
  {
    var name := LevelName(level);
    var padding := width - |name|;
    var left := TruncatingHalf(padding);
    var right := padding - left;
    if left < 0 || right < 0 then None
    else Some(Spaces(left) + name + Spaces(right))
  }

  /** A centred level string holds the name at ⌊pad/2⌋, spaces before it and spaces after it. */
  lemma LevelToStringLayout(level: LogLevel, width: int)
    requires width >= |LevelName(level)|
    ensures var s := LevelToString(level, width).value;
            var name := LevelName(level);
            var left := (width - |name|) / 2;
            && s[left..left + |name|] == name
            && (forall i | 0 <= i < left :: s[i] == ' ')
            && (forall i | left + |name| <= i < width :: s[i] == ' ')
  {
    var name := LevelName(level);
    var left := (width - |name|) / 2;
    var s := LevelToString(level, width).value;
    assert s == Spaces(left) + name + Spaces(width - |name| - left);
    assert s[left..left + |name|] == name;
  }

  /** At the default width every name fits, centred exactly as the ServerDir logger centres it. */
  lemma SameCentringAsServer(level: LogLevel)
    ensures LevelToString(level, DEFAULT_LEVEL_WIDTH) == Some(ServerDirLogger.LevelField(LevelName(level)))
  {
    var name := LevelName(level);
    ServerDirLogger.LevelFieldCentred(name);
    assert TruncatingHalf(DEFAULT_LEVEL_WIDTH - |name|) == (DEFAULT_LEVEL_WIDTH - |name|) / 2;
  }

  /** The five strings at the default width. */
  lemma DefaultWidthStrings()
    ensures LevelToString(Debug, DEFAULT_LEVEL_WIDTH) == Some(" DEBUG ")
    ensures LevelToString(Info, DEFAULT_LEVEL_WIDTH) == Some(" INFO  ")
    ensures LevelToString(Warning, DEFAULT_LEVEL_WIDTH) == Some("WARNING")
    ensures LevelToString(Error, DEFAULT_LEVEL_WIDTH) == Some(" ERROR ")
    ensures LevelToString(Unrecognized, DEFAULT_LEVEL_WIDTH) == Some("UNKNOWN")
  {
    ServerDirLogger.LevelFieldsOfLevels();
    SameCentringAsServer(Debug);
    SameCentringAsServer(Info);
    SameCentringAsServer(Warning);
    SameCentringAsServer(Error);
    SameCentringAsServer(Unrecognized);
  }

  predicate IsSeparator(c: char) {
    c == '/' || c == '\\'
  }

  /** `std::string::find_last_of("/\\")`, with `None` for `npos`. */
  function FindLastSeparator(s: string): (r: Option<nat>)
    ensures r.Some? ==> r.value < |s| && IsSeparator(s[r.value])
    ensures r.Some? ==> forall i | r.value < i < |s| :: !IsSeparator(s[i])
    ensures r.None? ==> forall i | 0 <= i < |s| :: !IsSeparator(s[i])
  {
    if s == [] then None
    else if IsSeparator(s[|s| - 1]) then Some(|s| - 1)
    else FindLastSeparator(s[..|s| - 1])
  }

  /**
   * The file name of `get_caller_details`: what follows the last separator,
   * or the whole path when it has none. It is the longest separator-free
   * suffix of the path.
   */
  function BaseName(path: string): (name: string)
    ensures |name| <= |path| && name == path[|path| - |name|..]
    ensures forall i | 0 <= i < |name| :: !IsSeparator(name[i])
    ensures |name| < |path| ==> IsSeparator(path[|path| - |name| - 1])
  {
    match FindLastSeparator(path)
    case None => path
    case Some(pos) => path[pos + 1..]
  }

  /** `get_caller_details`: `[file name:line]`. */
  function CallerDetails(file: string, line: int): string {
    "[" + BaseName(file) + ":" + IntToString(line) + "]"
  }

  /** A path without a separator is kept whole. */
  lemma BaseNameOfPlainName(name: string)
    requires forall i | 0 <= i < |name| :: !IsSeparator(name[i])
    ensures BaseName(name) == name
  {
  }

  /** Whatever precedes the last `'/'` or `'\\'` is dropped, and the separator with it. */
  lemma BaseNameAfterSeparator(dir: string, sep: char, name: string)
    requires IsSeparator(sep)
    requires forall i | 0 <= i < |name| :: !IsSeparator(name[i])
    ensures BaseName(dir + [sep] + name) == name
  {
    var path := dir + [sep] + name;
    assert path[|dir|] == sep;
    assert path[|dir| + 1..] == name;
  }

  /** `std::setw(n) << s`: right-aligned in `n` columns, never cut. */
  function SetW(s: string, n: nat): (r: string)
    ensures |r| == if |s| < n then n else |s|
    ensures r[|r| - |s|..] == s
    ensures forall i | 0 <= i < |r| - |s| :: r[i] == ' '
  {
    if |s| < n then Spaces(n - |s|) + s else s
  }

  /** The entry `log_message` builds. */
  function LogEntry(timestamp: string, levelStr: string, details: string, message: string, loggerName: string): string {
    "[" + timestamp + "] [" + SetW(levelStr, DEFAULT_LEVEL_WIDTH) + "] " + details + " " + message + " (" + loggerName + ")"
  }

  /**
   * A 7-character level string, as every level is at the default width,
   * passes `std::setw(7)` unchanged and sits right after `[timestamp] [`;
   * after it come "] ", the caller's details, the message and the logger's
   * name in parentheses, in that order.
   */
  lemma LevelColumn(timestamp: string, levelStr: string, details: string, message: string, loggerName: string)
    requires |levelStr| == DEFAULT_LEVEL_WIDTH
    ensures var entry := LogEntry(timestamp, levelStr, details, message, loggerName);
            && |entry| == |timestamp| + |details| + |message| + |loggerName| + 17
            && entry[..|timestamp| + 4] == "[" + timestamp + "] ["
            && entry[|timestamp| + 4..|timestamp| + 11] == levelStr
            && entry[|timestamp| + 11..] == "] " + details + " " + message + " (" + loggerName + ")"
  {
    var opening := "[" + timestamp + "] [";
    var tail := "] " + details + " " + message + " (" + loggerName + ")";
    var entry := LogEntry(timestamp, levelStr, details, message, loggerName);
    assert entry == opening + levelStr + tail;
    assert entry[..|opening|] == opening;
    assert entry[|opening|..|opening| + |levelStr|] == levelStr;
    assert entry[|opening| + |levelStr|..] == tail;
  }

  /** The entry `log_message` writes for a call from `file`:`line`, with the level centred at the default width. */
  function MessageEntry(level: LogLevel, message: string, file: string, line: int, timestamp: string, loggerName: string): string {
    LogEntry(timestamp, LevelToString(level, DEFAULT_LEVEL_WIDTH).value, CallerDetails(file, line), message, loggerName)
  }

  /**
   * The entry `log_message` writes: "[timestamp] [", the level centred as the
   * ServerDir logger centres it, then "] ", the caller's "[file:line]", the
   * message and the logger's name in parentheses.
   */
  lemma MessageEntryLayout(level: LogLevel, message: string, file: string, line: int, timestamp: string, loggerName: string)
    ensures var entry := MessageEntry(level, message, file, line, timestamp, loggerName);
            && entry[..|timestamp| + 4] == "[" + timestamp + "] ["
            && entry[|timestamp| + 4..|timestamp| + 11] == ServerDirLogger.LevelField(LevelName(level))
            && entry[|timestamp| + 11..] == "] " + CallerDetails(file, line) + " " + message + " (" + loggerName + ")"
  {
    SameCentringAsServer(level);
    LevelColumn(timestamp, LevelToString(level, DEFAULT_LEVEL_WIDTH).value, CallerDetails(file, line), message, loggerName);
  }

  class Log {
    const loggerName: string
    var logToFile: bool
    const logToConsole: bool
    /** Whether `_log_file` is open. */
    var fileOpen: bool
    /** The lines printed to the console, and the lines written to the log file. */
    var console: seq<string>
    var fileLines: seq<string>

    /** The file is open only while file logging is on. */
    predicate Valid()
      reads this
    {
      fileOpen ==> logToFile
    }

    /** `Log::Log`; `openSucceeds` is what `is_open()` reports after `open(filename, std::ios::app)`. */
    constructor (loggerName: string, filename: string, logToFile: bool, logToConsole: bool, openSucceeds: bool)
      ensures Valid()
      ensures this.loggerName == loggerName && this.logToConsole == logToConsole
      ensures this.logToFile == (logToFile && (filename == "" || openSucceeds))
      ensures fileOpen == (logToFile && filename != "" && openSucceeds)
      ensures console == [] && fileLines == []
    {
      this.loggerName := loggerName;
      this.logToFile := logToFile;
      this.logToConsole := logToConsole;
      fileOpen := false;
      console := [];
      fileLines := [];
      new;
      if this.logToFile && filename != "" {
        fileOpen := openSucceeds;
        if !fileOpen {
          this.logToFile := false;
        }
      }
    }

    /** `Log::cleanup`: closes the file if it is open; a second call finds nothing to do. */
    method Cleanup()
      requires Valid()
      modifies this`fileOpen
      ensures Valid() && !fileOpen
    {
      if fileOpen {
        fileOpen := false;
      }
    }

    /** `Log::log_to_file`: DEBUG entries are never written. */
    method LogToFile(entry: string, level: LogLevel)
      modifies this`fileLines
      ensures fileLines == old(fileLines) + (if level.Debug? then [] else [entry])
    {
      if level != Debug {
        fileLines := fileLines + [entry];
      }
    }

    /**
     * The routing at the end of `Log::log_message`. `thrown` is set when
     * `COLORS.at(level)` throws `std::out_of_range`: that happens for a level
     * outside the four, before anything is printed, and the entry then reaches
     * neither sink.
     */
    method Route(entry: string, level: LogLevel) returns (thrown: bool)
      requires Valid()
      modifies this`console, this`fileLines
      ensures Valid()
      ensures thrown <==> logToConsole && level.Unrecognized?
      ensures console == old(console) + (if logToConsole && !thrown then [entry] else [])
      ensures fileLines == old(fileLines) + (if !thrown && fileOpen && !level.Debug? then [entry] else [])
    {
      thrown := logToConsole && level.Unrecognized?;
      if !thrown {
        if logToConsole {
          console := console + [entry];
        }
        if logToFile && fileOpen {
          LogToFile(entry, level);
        }
      }
    }

    /** `Log::log_message`: build the entry for the caller's file and line, then route it. */
    method LogMessage(level: LogLevel, message: string, file: string, line: int, timestamp: string)
      returns (thrown: bool)
      requires Valid()
      modifies this`console, this`fileLines
      ensures Valid()
      ensures thrown <==> logToConsole && level.Unrecognized?
      ensures var entry := MessageEntry(level, message, file, line, timestamp, loggerName);
              && console == old(console) + (if logToConsole && !thrown then [entry] else [])
              && fileLines == old(fileLines) +
                   (if !thrown && fileOpen && !level.Debug? then [entry] else [])
    {
      var entry := MessageEntry(level, message, file, line, timestamp, loggerName);
      thrown := Route(entry, level);
    }
  }

  /**
   * A logger whose file opened writes every entry but DEBUG ones to it, and
   * one whose file did not open writes nothing there and stops trying.
   */
  method FileOutput(level: LogLevel, message: string, file: string, line: int, timestamp: string, openSucceeds: bool)
    returns (written: seq<string>, fileLoggingOn: bool)
    requires !level.Unrecognized?
    ensures fileLoggingOn == openSucceeds
    ensures written == if openSucceeds && !level.Debug? then
                         [MessageEntry(level, message, file, line, timestamp, "client")]
                       else []
  {
    var log := new Log("client", "client.log", true, true, openSucceeds);
    var _ := log.LogMessage(level, message, file, line, timestamp);
    written, fileLoggingOn := log.fileLines, log.logToFile;
  }
}
