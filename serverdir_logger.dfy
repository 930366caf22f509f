/**
 * The server's logger (ServerDir/Logger.py): level-name centring, the
 * column-padded entry layout, and the routing of each entry to the console and
 * to the log file. The clock, the caller's frame, ANSI colours, the lock and
 * the file system are abstracted: timestamps, caller details and whether
 * opening the file succeeds are inputs, and the console and the file are
 * sequences of the lines written to them.
 */
module ServerDirLogger {
  import opened Text
  import opened LogLevels

  const TIMESTAMP_WIDTH := 19
  const LEVEL_WIDTH := 7
  const MAX_FIXED_PART_LENGTH := 54

  /**
   * Python's `str.center(width)`: text at least `width` long is returned as is;
   * otherwise the margin is split with the extra space on the right, except
   * that an odd margin in an odd width puts it on the left.
   */
  function Center(s: string, width: nat): (r: string)
    ensures |s| >= width ==> r == s
    ensures |s| < width ==> |r| == width
  {
    if |s| >= width then s
    else
      var marg := width - |s|;
      var left := marg / 2 + (if marg % 2 == 1 && width % 2 == 1 then 1 else 0);
      Spaces(left) + s + Spaces(marg - left)
  }

  /**
   * Where `Center` puts the text: after CPython's left margin
   * `marg // 2 + (marg & width & 1)`, with spaces on both sides.
   */
  lemma CenterLayout(s: string, width: nat)
    requires |s| < width
    ensures var r := Center(s, width);
            var marg := width - |s|;
            var left := marg / 2 + (if marg % 2 == 1 && width % 2 == 1 then 1 else 0);
            && r[left..left + |s|] == s
            && (forall i | 0 <= i < left :: r[i] == ' ')
            && (forall i | left + |s| <= i < width :: r[i] == ' ')
  {
    var marg := width - |s|;
    var left := marg / 2 + (if marg % 2 == 1 && width % 2 == 1 then 1 else 0);
    var r := Center(s, width);
    assert r == Spaces(left) + s + Spaces(marg - left);
    assert r[left..left + |s|] == s;
  }

  /** The level field of `_format_log_entry`: even-length names centred in 6 plus a space, odd ones centred in 7. */
  function LevelField(levelStr: string): (f: string)
  {
    if |levelStr| % 2 == 0 then Center(levelStr, LEVEL_WIDTH - 1) + " " else Center(levelStr, LEVEL_WIDTH)
  }

  /** An even margin is split evenly, whatever the width. */
  lemma CenterEvenMargin(s: string, width: nat)
    requires |s| <= width && (width - |s|) % 2 == 0
    ensures var half := (width - |s|) / 2;
            Center(s, width) == Spaces(half) + s + Spaces(half)
  {
    if |s| == width {
      assert Spaces(0) + s + Spaces(0) == s;
    }
  }

  /** One more space after a run of `k` spaces is a run of `k + 1`. */
  lemma AppendSpace(a: string, k: nat)
    ensures a + Spaces(k) + " " == a + Spaces(k + 1)
  {
    assert Spaces(k) + " " == Spaces(k + 1);
  }

  /** A name of at most 7 characters fills exactly 7, after ⌊(7 - length) / 2⌋ spaces. */
  lemma LevelFieldCentred(levelStr: string)
    requires |levelStr| <= LEVEL_WIDTH
    ensures var lead := (LEVEL_WIDTH - |levelStr|) / 2;
            LevelField(levelStr) == Spaces(lead) + levelStr + Spaces(LEVEL_WIDTH - |levelStr| - lead)
  {
    if |levelStr| % 2 == 0 {
      EvenNameCentred(levelStr);
    } else {
      CenterEvenMargin(levelStr, LEVEL_WIDTH);
    }
  }

  /** An even-length name is centred in 6, where its margin splits evenly, and gets one more space. */
  lemma EvenNameCentred(levelStr: string)
    requires |levelStr| < LEVEL_WIDTH && |levelStr| % 2 == 0
    ensures var lead := (LEVEL_WIDTH - 1 - |levelStr|) / 2;
            LevelField(levelStr) == Spaces(lead) + levelStr + Spaces(lead + 1)
  {
    var lead := (LEVEL_WIDTH - 1 - |levelStr|) / 2;
    CenterEvenMargin(levelStr, LEVEL_WIDTH - 1);
    AppendSpace(Spaces(lead) + levelStr, lead);
  }

  /** The level fields of the four levels, and of an unknown one. */
  lemma LevelFieldsOfLevels()
    ensures LevelField(LevelName(Debug)) == " DEBUG "
    ensures LevelField(LevelName(Info)) == " INFO  "
    ensures LevelField(LevelName(Warning)) == "WARNING"
    ensures LevelField(LevelName(Error)) == " ERROR "
    ensures LevelField(LevelName(Unrecognized)) == "UNKNOWN"
  {
    LevelFieldCentred("DEBUG");
    LevelFieldCentred("INFO");
    LevelFieldCentred("WARNING");
    LevelFieldCentred("ERROR");
    LevelFieldCentred("UNKNOWN");
  }

  /** Python's slice `s[:n]`. */
  function Truncate(s: string, n: nat): (r: string)
    ensures |r| == if |s| < n then |s| else n
    ensures r == s[..|r|]
  {
    if |s| <= n then s else s[..n]
  }

  /** `[filename:line]`, the caller details of an entry. */
  function CallerField(filename: string, line: int): string {
    "[" + filename + ":" + IntToString(line) + "]"
  }

  /** `[timestamp] [level] [filename:line]`, the part before the padding; it opens with the timestamp cut to 19 characters. */
  function FixedPart(timestamp: string, levelStr: string, filename: string, line: int): (fixed: string)
    ensures var ts := Truncate(timestamp, TIMESTAMP_WIDTH);
            |fixed| > |ts| + 2 && fixed[..|ts| + 2] == "[" + ts + "]"
  {
    var opening := "[" + Truncate(timestamp, TIMESTAMP_WIDTH) + "] [";
    var fixed := opening + LevelField(levelStr) + ("] " + CallerField(filename, line));
    assert fixed[..|opening| - 2] == opening[..|opening| - 2];
    fixed
  }

  /** Where the pieces of `[ts] [field] details` sit, for any strings. */
  lemma BracketedLayout(ts: string, field: string, details: string)
    ensures var fixed := "[" + ts + "] [" + field + ("] " + details);
            && |fixed| == |ts| + |field| + |details| + 6
            && fixed[|ts| + 2..|ts| + 4] == " ["
            && fixed[|ts| + 4..|ts| + 4 + |field|] == field
            && fixed[|ts| + 4 + |field|..] == "] " + details
  {
    var opening := "[" + ts + "] [";
    var fixed := opening + field + ("] " + details);
    assert fixed[..|opening|] == opening;
    assert fixed[|ts| + 2..|ts| + 4] == opening[|ts| + 2..];
    assert fixed[|opening|..|opening| + |field|] == field;
  }

  /** After the bracketed timestamp come " [", the level field, "] " and the bracketed caller details, and nothing else. */
  lemma FixedPartLayout(timestamp: string, levelStr: string, filename: string, line: int)
    ensures var fixed := FixedPart(timestamp, levelStr, filename, line);
            var ts := Truncate(timestamp, TIMESTAMP_WIDTH);
            var field := LevelField(levelStr);
            var details := CallerField(filename, line);
            && |fixed| == |ts| + |field| + |details| + 6
            && fixed[|ts| + 2..|ts| + 4] == " ["
            && fixed[|ts| + 4..|ts| + 4 + |field|] == field
            && fixed[|ts| + 4 + |field|..] == "] " + details
  {
    BracketedLayout(Truncate(timestamp, TIMESTAMP_WIDTH), LevelField(levelStr), CallerField(filename, line));
  }

  /**
   * The layout of an entry: the fixed part padded with spaces to column 54
   * (never cut), then the message verbatim and the logger name in parentheses.
   */
  function PadEntry(fixed: string, message: string, loggerName: string): (entry: string)
    ensures var column := if |fixed| < MAX_FIXED_PART_LENGTH then MAX_FIXED_PART_LENGTH else |fixed|;
            && |entry| == column + |message| + |loggerName| + 3
            && entry[..|fixed|] == fixed
            && (forall i | |fixed| <= i < column :: entry[i] == ' ')
            && entry[column..column + |message|] == message
            && entry[column + |message|..] == " (" + loggerName + ")"
  {
    var padding := Spaces(if |fixed| < MAX_FIXED_PART_LENGTH then MAX_FIXED_PART_LENGTH - |fixed| else 0);
    var head := fixed + padding;
    var entry := head + (message + (" (" + loggerName + ")"));
    assert entry[..|fixed|] == fixed;
    assert entry[|head|..|head| + |message|] == message;
    assert entry[|head| + |message|..] == " (" + loggerName + ")";
    entry
  }

  /** `Log._format_log_entry`. */
  function FormatLogEntry(timestamp: string, levelStr: string, filename: string, line: int,
                          message: string, loggerName: string): string
  {
    PadEntry(FixedPart(timestamp, levelStr, filename, line), message, loggerName)
  }

  /** Every entry opens with the bracketed timestamp, cut to its first 19 characters. */
  lemma TimestampFirst(timestamp: string, levelStr: string, filename: string, line: int,
                       message: string, loggerName: string)
    ensures var ts := Truncate(timestamp, TIMESTAMP_WIDTH);
            var entry := FormatLogEntry(timestamp, levelStr, filename, line, message, loggerName);
            && |ts| <= TIMESTAMP_WIDTH && ts == timestamp[..|ts|]
            && |entry| > |ts| + 2 && entry[..|ts| + 2] == "[" + ts + "]"
  {
    var fixed := FixedPart(timestamp, levelStr, filename, line);
    var entry := PadEntry(fixed, message, loggerName);
    var ts := Truncate(timestamp, TIMESTAMP_WIDTH);
    assert entry[..|ts| + 2] == entry[..|fixed|][..|ts| + 2];
  }

  /**
   * The attributes declared on the class body of `Log`, shared by every
   * instance: `Log._log_file` (here: whether it holds a file; nothing in the
   * program ever assigns it) and `Log._to_file`.
   */
  class LogClassAttributes {
    var logFile: bool
    var toFile: bool

    constructor ()
      ensures !logFile && !toFile
    {
      logFile := false;
      toFile := false;
    }
  }

  class Log {
    const classAttributes: LogClassAttributes
    var toFile: bool
    var toConsole: bool
    var loggerName: string
    /** Whether the instance attribute `self._log_file` holds an open file. */
    var logFile: bool
    /** The lines printed to the console, and the lines written to this logger's file. */
    var console: seq<string>
    var fileLines: seq<string>

    /** `Log.__init__`; `openSucceeds` is the file system's answer to `open(filename, "a")`. */
    constructor (classAttributes: LogClassAttributes, loggerName: string, filename: string,
                 logToFile: bool, logToConsole: bool, openSucceeds: bool)
      modifies classAttributes
      ensures this.classAttributes == classAttributes
      ensures toFile == logToFile && toConsole == logToConsole && this.loggerName == loggerName
      ensures logFile == (logToFile && filename != "" && openSucceeds)
      ensures classAttributes.logFile == old(classAttributes.logFile)
      ensures classAttributes.toFile ==
                if logToFile && filename != "" && !openSucceeds then false else old(classAttributes.toFile)
      ensures console == [] && fileLines == []
    {
      this.classAttributes := classAttributes;
      toFile := logToFile;
      toConsole := logToConsole;
      this.loggerName := loggerName;
      logFile := false;
      console := [];
      fileLines := [];
      new;
      InitializeLogFile(filename, openSucceeds);
    }

    /**
     * `Log._initialize_log_file`: a failed open clears the CLASS attribute
     * `Log._to_file`, leaving the instance's own `_to_file` as it was.
     */
    method InitializeLogFile(filename: string, openSucceeds: bool)
      modifies this, classAttributes
      ensures logFile == (old(logFile) || (toFile && filename != "" && openSucceeds))
      ensures classAttributes.toFile ==
                if toFile && filename != "" && !openSucceeds then false else old(classAttributes.toFile)
      ensures classAttributes.logFile == old(classAttributes.logFile)
      ensures toFile == old(toFile) && toConsole == old(toConsole) && loggerName == old(loggerName)
      ensures console == old(console) && fileLines == old(fileLines)
    {
      if toFile && filename != "" {
        if openSucceeds {
          logFile := true;
        } else {
          classAttributes.toFile := false;
        }
      }
    }

    /** `Log.cleanup`: closes an open file and forgets it; a second call finds nothing to do. */
    method Cleanup()
      modifies this
      ensures !logFile
      ensures toFile == old(toFile) && toConsole == old(toConsole) && loggerName == old(loggerName)
      ensures console == old(console) && fileLines == old(fileLines)
    {
      if logFile {
        logFile := false;
      }
    }

    /**
     * `Log._log_to_file`: DEBUG entries are never written to the file. With no
     * file open, `self._log_file.write` would raise `AttributeError`; neither
     * caller reaches it then, since the as-written gate reads a class attribute
     * nothing ever sets and the corrected gate reads the instance's open file.
     */
    method LogToFile(entry: string, level: LogLevel)
      modifies this
      ensures fileLines == old(fileLines) + (if level.Debug? then [] else [entry])
      ensures logFile == old(logFile) && toFile == old(toFile) && toConsole == old(toConsole)
      ensures loggerName == old(loggerName) && console == old(console)
    {
      if !level.Debug? {
        fileLines := fileLines + [entry];
      }
    }

    /**
     * `Log._log_message` with the caller's file and line given: the entry goes
     * to the console when `_to_console` is set, and to the
     * file only when `_to_file` is set AND the class attribute `Log._log_file` holds a file.
     */
    method LogMessage(level: LogLevel, message: string, filename: string, line: int, timestamp: string)
      modifies this
      ensures var entry := FormatLogEntry(timestamp, LevelName(level), filename, line, message, loggerName);
              && console == old(console) + (if toConsole then [entry] else [])
              && fileLines == old(fileLines) +
                   (if toFile && classAttributes.logFile && !level.Debug? then [entry] else [])
      ensures logFile == old(logFile) && toFile == old(toFile) && toConsole == old(toConsole)
      ensures loggerName == old(loggerName)
    {
      var entry := FormatLogEntry(timestamp, LevelName(level), filename, line, message, loggerName);
      if toConsole {
        console := console + [entry];
      }
      if toFile && classAttributes.logFile {
        LogToFile(entry, level);
      }
    }

    /** The routing evidently intended: gate file output on this instance's own open file. */
    method LogMessageAsIntended(level: LogLevel, message: string, filename: string, line: int, timestamp: string)
      modifies this
      ensures var entry := FormatLogEntry(timestamp, LevelName(level), filename, line, message, loggerName);
              && console == old(console) + (if toConsole then [entry] else [])
              && fileLines == old(fileLines) + (if toFile && logFile && !level.Debug? then [entry] else [])
      ensures logFile == old(logFile) && toFile == old(toFile) && toConsole == old(toConsole)
      ensures loggerName == old(loggerName)
    {
      var entry := FormatLogEntry(timestamp, LevelName(level), filename, line, message, loggerName);
      if toConsole {
        console := console + [entry];
      }
      if toFile && logFile {
        LogToFile(entry, level);
      }
    }
  }

  /**
   * A logger asked to write to a file that opens without trouble still writes
   * nothing there, whatever the level: the gate reads the class attribute,
   * which `__init__` never sets. The console gets the entry.
   */
  method FileOutputNeverHappens(level: LogLevel, message: string, filename: string, line: int, timestamp: string)
    returns (written: seq<string>, printed: seq<string>)
    ensures written == []
    ensures printed == [FormatLogEntry(timestamp, LevelName(level), filename, line, message, "server")]
  {
    var attributes := new LogClassAttributes();
    var log := new Log(attributes, "server", "server.log", true, true, true);
    log.LogMessage(level, message, filename, line, timestamp);
    written, printed := log.fileLines, log.console;
  }

  /** With the intended gate, every entry but a DEBUG one reaches the file. */
  method FileOutputAsIntended(level: LogLevel, message: string, filename: string, line: int, timestamp: string)
    returns (written: seq<string>)
    ensures written == if level.Debug? then [] else [FormatLogEntry(timestamp, LevelName(level), filename, line, message, "server")]
  {
    var attributes := new LogClassAttributes();
    var log := new Log(attributes, "server", "server.log", true, true, true);
    log.LogMessageAsIntended(level, message, filename, line, timestamp);
    written := log.fileLines;
  }
}
