/**
 * The four log levels shared by the server's two loggers and the client's
 * logger, plus `Unrecognized` for any other value, which each level-to-text
 * conversion maps to "UNKNOWN".
 */
module LogLevels {

  datatype LogLevel = Debug | Info | Warning | Error | Unrecognized

  /** The level's name (`LogLevel.to_string` in ServerDir/Logger.py, the switch of `log_level_to_string` in the client). */
  function LevelName(level: LogLevel): (name: string)
    ensures 4 <= |name| <= 7
    ensures name == "UNKNOWN" <==> level.Unrecognized?
  {
    match level
    case Debug => "DEBUG"
    case Info => "INFO"
    case Warning => "WARNING"
    case Error => "ERROR"
    case Unrecognized => "UNKNOWN"
  }

  /** Different levels have different names. */
  lemma LevelNamesDistinct(a: LogLevel, b: LogLevel)
    ensures LevelName(a) == LevelName(b) ==> a == b
  {
  }
}
