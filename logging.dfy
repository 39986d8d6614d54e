/**
 * Log records and the line that `log_to_file` writes for one of them.
 *
 * In the configuration the file is built with (`SUPRESS_OUTPUT` defined),
 * every level is routed to `log_nothing` and `log_to_file` is compiled out;
 * its behaviour is modelled all the same.
 */
module Logging {

  /** The levels of libbitcoin's logger. */
  datatype LogLevel = Debug | Info | Warning | Error | Fatal

  /** One record handed to the logger: its level, its domain and its text. */
  datatype LogEntry = LogEntry(level: LogLevel, domain: string, body: string)

  /** libbitcoin's `level_repr`: the upper-case name of a level. */
  function LevelRepr(level: LogLevel): (r: string)
    ensures r != [] && ' ' !in r && ':' !in r
  {
    match level
    case Debug => "DEBUG"
    case Info => "INFO"
    case Warning => "WARNING"
    case Error => "ERROR"
    case Fatal => "FATAL"
  }

  /** What precedes ": " on a written line: the level, then " [domain]" if there is a domain. */
  function LineHeader(level: LogLevel, domain: string): string
  {
    LevelRepr(level) + (if domain == [] then [] else " [" + domain + "]")
  }

  /**
   * The text `log_to_file` appends to its file for one record: nothing for an
   * empty body; otherwise the level, the bracketed domain only when there is
   * one, then ": ", the body and a newline.
   */
  function LogToFile(level: LogLevel, domain: string, body: string): (r: string)
    ensures body == [] <==> r == []
    ensures body != [] ==>
              var repr := LevelRepr(level);
              |r| == |repr| + (if domain == [] then 0 else |domain| + 3) + 2 + |body| + 1 &&
              r[..|repr|] == repr &&
              (domain != [] ==> r[|repr|..|repr| + |domain| + 3] == " [" + domain + "]") &&
              r[|r| - |body| - 3..|r| - |body| - 1] == ": " &&
              r[|r| - 1 - |body|..|r| - 1] == body && r[|r| - 1] == '\n' &&
              (r[|repr|] == ' ' <==> domain != [])
  {
    if body == [] then []
    else LineHeader(level, domain) + ": " + body + "\n"
  }

  /** Reads the body back out of a line written for `level` and `domain`. */
  function LineBody(level: LogLevel, domain: string, line: string): string
  {
    var start := |LineHeader(level, domain)| + 2;
    if |line| <= start then [] else line[start..|line| - 1]
  }

  /** No record is lost or altered: the body is recoverable from the written line. */
  lemma LineBodyRoundTrip(level: LogLevel, domain: string, body: string)
    ensures LineBody(level, domain, LogToFile(level, domain, body)) == body
  {
  }

  /** Two records of the same level and domain write the same line only if their bodies agree. */
  lemma LogToFileInjective(level: LogLevel, domain: string, body1: string, body2: string)
    requires LogToFile(level, domain, body1) == LogToFile(level, domain, body2)
    ensures body1 == body2
  {
  }
}
