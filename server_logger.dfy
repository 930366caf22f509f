/**
 * The older server logger (Server/Logger.py): hard-coded 7-character level
 * fields, a tab between the caller details and the message, and the same
 * routing as the ServerDir logger. Clock, caller frame, colours, lock and
 * file system are abstracted as in `ServerDirLogger`.
 */
module ServerLogger {
  import opened Text
  import opened LogLevels
  import ServerDirLogger

  /** `LogLevel.to_string`: the level names already padded to 7 characters. */
  function LevelString(level: LogLevel): (s: string)
    ensures |s| == 7
  {
    match level
    case Debug => " DEBUG "
    case Info => " INFO  "
    case Warning => "WARNING"
    case Error => " ERROR "
    case Unrecognized => "UNKNOWN"
  }

  /** The hard-coded fields are exactly the centred names the ServerDir logger computes. */
  lemma LevelStringCentred(level: LogLevel)
    ensures LevelString(level) == ServerDirLogger.LevelField(LevelName(level))
  {
    ServerDirLogger.LevelFieldsOfLevels();
  }

  /** `[timestamp] [level] [file:line]` and the tab that follows it. */
  function EntryHead(timestamp: string, level: LogLevel, filename: string, line: int): (head: string)
    ensures |head| == |timestamp| + |filename| + |IntToString(line)| + 17
    ensures head[..|timestamp| + 3] == "[" + timestamp + "] "
    ensures head[|timestamp| + 4..|timestamp| + 11] == LevelString(level)
    ensures head[|head| - 1] == '\t'
  {
    var opening := "[" + timestamp + "] [" + LevelString(level);
    var head := opening + ("] [" + filename + ":" + IntToString(line) + "]\t");
    assert head[..|timestamp| + 3] == opening[..|timestamp| + 3];
    assert head[|timestamp| + 4..|timestamp| + 11] == opening[|timestamp| + 4..];
    head
  }

  /** The head in full: "[" timestamp "] [" level "] [" file ":" line "]" and a tab. */
  lemma EntryHeadLayout(timestamp: string, level: LogLevel, filename: string, line: int)
    ensures var head := EntryHead(timestamp, level, filename, line);
            && head[|timestamp| + 3] == '['
            && head[|timestamp| + 11..] == "] [" + filename + ":" + IntToString(line) + "]\t"
  {
    var opening := "[" + timestamp + "] [" + LevelString(level);
    var rest := "] [" + filename + ":" + IntToString(line) + "]\t";
    var head := EntryHead(timestamp, level, filename, line);
    assert head == opening + rest;
    assert head[|timestamp| + 3] == opening[|timestamp| + 3];
    assert head[|opening|..] == rest;
  }

  /** The f-string of `_log_message`: the head, the message verbatim and the logger name in parentheses. */
  function LogEntry(timestamp: string, level: LogLevel, filename: string, line: int,
                    message: string, loggerName: string): (entry: string)
    ensures var tail := |message| + |loggerName| + 3;
            var head := EntryHead(timestamp, level, filename, line);
            && |entry| == |head| + tail
            && entry[..|head|] == head
            && entry[|head|..|head| + |message|] == message
            && entry[|head| + |message|..] == " (" + loggerName + ")"
  {
    var head := EntryHead(timestamp, level, filename, line);
    TailLayout(head, message, loggerName);
    head + (message + (" (" + loggerName + ")"))
  }

  /** Where the head, the message and the bracketed name sit in an entry, for any strings. */
  lemma TailLayout(head: string, message: string, loggerName: string)
    ensures var entry := head + (message + (" (" + loggerName + ")"));
            && |entry| == |head| + |message| + |loggerName| + 3
            && entry[..|head|] == head
            && entry[|head|..|head| + |message|] == message
            && entry[|head| + |message|..] == " (" + loggerName + ")"
  {
    var entry := head + (message + (" (" + loggerName + ")"));
    assert entry[..|head|] == head;
    assert entry[|head|..|head| + |message|] == message;
  }

  /**
   * The attributes declared on the class body of this module's own `Log`,
   * shared by its instances: `Log._log_file` (whether it holds a file; nothing
   * in the program ever assigns it) and `Log._to_file`.
   */
  class LogClassAttributes {
    var logFile: bool
    var toFile: bool

    constructor ()
      ensures !logFile && !toFile
    {
      logFile := false;
      toFile := false;
    }
  }

  class Log {
    /** `Log._log_file` and `Log._to_file` on the class body, shared by every instance. */
    const classAttributes: LogClassAttributes
    var toFile: bool
    var toConsole: bool
    var loggerName: string
    /** Whether the instance attribute `self._log_file` holds an open file. */
    var logFile: bool
    var console: seq<string>
    var fileLines: seq<string>

    /** `Log.__init__` with `_initialize_log_file`; `openSucceeds` is the answer to `open(filename, "a")`. */
    constructor (classAttributes: LogClassAttributes, loggerName: string, filename: string,
                 logToFile: bool, logToConsole: bool, openSucceeds: bool)
      modifies classAttributes
      ensures this.classAttributes == classAttributes
      ensures toFile == logToFile && toConsole == logToConsole && this.loggerName == loggerName
      ensures logFile == (logToFile && filename != "" && openSucceeds)
      ensures classAttributes.logFile == old(classAttributes.logFile)
      ensures classAttributes.toFile ==
                if logToFile && filename != "" && !openSucceeds then false else old(classAttributes.toFile)
      ensures console == [] && fileLines == []
    {
      this.classAttributes := classAttributes;
      toFile := logToFile;
      toConsole := logToConsole;
      this.loggerName := loggerName;
      logFile := logToFile && filename != "" && openSucceeds;
      console := [];
      fileLines := [];
      new;
      if logToFile && filename != "" && !openSucceeds {
        classAttributes.toFile := false;
      }
    }

    /** `Log.cleanup`: closes an open file and forgets it; a second call finds nothing to do. */
    method Cleanup()
      modifies this
      ensures !logFile
      ensures toFile == old(toFile) && toConsole == old(toConsole) && loggerName == old(loggerName)
      ensures console == old(console) && fileLines == old(fileLines)
    {
      if logFile {
        logFile := false;
      }
    }

    /**
     * `Log._log_to_file`: DEBUG entries are never written to the file. With no
     * file open, `self._log_file.write` would raise `AttributeError`; the only
     * caller reaches it through a class attribute nothing ever sets.
     */
    method LogToFile(entry: string, level: LogLevel)
      modifies this
      ensures fileLines == old(fileLines) + (if level.Debug? then [] else [entry])
      ensures logFile == old(logFile) && toFile == old(toFile) && toConsole == old(toConsole)
      ensures loggerName == old(loggerName) && console == old(console)
    {
      if !level.Debug? {
        fileLines := fileLines + [entry];
      }
    }

    /**
     * `Log._log_message` with the caller's file and line given: the entry goes
     * to the console when `_to_console` is set, and to the file only when
     * `_to_file` is set and the CLASS attribute `Log._log_file` holds a file.
     */
    method LogMessage(level: LogLevel, message: string, filename: string, line: int, timestamp: string)
      modifies this
      ensures var entry := LogEntry(timestamp, level, filename, line, message, loggerName);
              && console == old(console) + (if toConsole then [entry] else [])
              && fileLines == old(fileLines) +
                   (if toFile && classAttributes.logFile && !level.Debug? then [entry] else [])
      ensures logFile == old(logFile) && toFile == old(toFile) && toConsole == old(toConsole)
      ensures loggerName == old(loggerName)
    {
      var entry := LogEntry(timestamp, level, filename, line, message, loggerName);
      if toConsole {
        console := console + [entry];
      }
      if toFile && classAttributes.logFile {
        LogToFile(entry, level);
      }
    }
  }

  /** As in the ServerDir logger, a logger whose file opened writes nothing to it. */
  method FileOutputNeverHappens(level: LogLevel, message: string, filename: string, line: int, timestamp: string)
    returns (written: seq<string>, printed: seq<string>)
    ensures written == []
    ensures printed == [LogEntry(timestamp, level, filename, line, message, "default")]
  {
    var attributes := new LogClassAttributes();
    var log := new Log(attributes, "default", "logfile.txt", true, true, true);
    log.LogMessage(level, message, filename, line, timestamp);
    written, printed := log.fileLines, log.console;
  }
}
