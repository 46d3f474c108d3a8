/**
 * Factory method: LoggerFactory picks a logger implementation from a logger
 * type and an optional options record, and each logger formats its lines.
 */
module Factory {
  import opened Wrappers

  datatype LoggerType = Console | File

  /** The options record; only its filePath entry is consulted. */
  datatype Options = Options(filePath: Option<string>)

  /** A ConsoleLogger, or a FileLogger holding the path it appends to. */
  datatype Logger = ConsoleLogger | FileLogger(filePath: string)

  const FilePathMissing := "File path is missing for FileLogger."

  /** A file path counts as given when present and non-empty (JavaScript truthiness). */
  predicate HasFilePath(options: Option<Options>) {
    options.Some? && options.value.filePath.Some? && options.value.filePath.value != ""
  }

  /**
   * createLogger: a Console type always succeeds; a File type succeeds exactly
   * when a file path is given, and otherwise fails with the missing-path error.
   */
  function CreateLogger(loggerType: LoggerType, options: Option<Options>): (r: Result<Logger, string>)
    ensures r.Ok? <==> loggerType == Console || HasFilePath(options)
    ensures loggerType == Console ==> r == Ok(ConsoleLogger)
    ensures loggerType == File && r.Ok? ==>
      r.value.FileLogger? && r.value.filePath == options.value.filePath.value && r.value.filePath != ""
    ensures r.Err? ==> r.error == FilePathMissing
  {
    match loggerType
    case Console => Ok(ConsoleLogger)
    case File =>
      if HasFilePath(options) then Ok(FileLogger(options.value.filePath.value))
      else Err(FilePathMissing)
  }

  const ConsolePrefix := "[Console] "
  const FilePrefix := "[File] "

  /**
   * The line a logger writes for a message: to the console, or appended to its
   * file. Either format carries the message unaltered, so it can be read back.
   */
  function LogLine(logger: Logger, message: string): (line: string)
    ensures MessageOf(logger, line) == Some(message)
  {
    match logger
    case ConsoleLogger =>
      var line := ConsolePrefix + message;
      assert line[..|ConsolePrefix|] == ConsolePrefix;
      assert line[|ConsolePrefix|..] == message;
      line
    case FileLogger(_) =>
      var line := FilePrefix + message + "\n";
      assert line[..|FilePrefix|] == FilePrefix;
      assert line[|FilePrefix|..|line| - 1] == message;
      line
  }

  /** Recovers the message from a line, given the kind of logger that wrote it. */
  function MessageOf(logger: Logger, line: string): Option<string> {
    match logger
    case ConsoleLogger =>
      if |ConsolePrefix| <= |line| && line[..|ConsolePrefix|] == ConsolePrefix
      then Some(line[|ConsolePrefix|..]) else None
    case FileLogger(_) =>
      if |FilePrefix| + 1 <= |line| && line[..|FilePrefix|] == FilePrefix && line[|line| - 1] == '\n'
      then Some(line[|FilePrefix|..|line| - 1]) else None
  }

  /** Console and file lines can never be confused: they start differently. */
  lemma LogLinesDistinct(path: string, message1: string, message2: string)
    ensures LogLine(ConsoleLogger, message1) != LogLine(FileLogger(path), message2)
  {
    assert LogLine(ConsoleLogger, message1)[1] == 'C';
    assert LogLine(FileLogger(path), message2)[1] == 'F';
  }

  /** The usage example: a console logger, and a file logger for "logs.txt". */
  lemma UsageScenario()
    ensures CreateLogger(Console, None) == Ok(ConsoleLogger)
    ensures LogLine(ConsoleLogger, "This is a console log.") == "[Console] This is a console log."
    ensures CreateLogger(File, Some(Options(Some("logs.txt")))) == Ok(FileLogger("logs.txt"))
    ensures LogLine(FileLogger("logs.txt"), "This is a file log.") == "[File] This is a file log.\n"
    ensures CreateLogger(File, None) == Err("File path is missing for FileLogger.")
    ensures CreateLogger(File, Some(Options(Some("")))) == Err("File path is missing for FileLogger.")
  {
    ConsoleUsage();
    FileUsage();
  }

  lemma ConsoleUsage()
    ensures CreateLogger(Console, None) == Ok(ConsoleLogger)
    ensures LogLine(ConsoleLogger, "This is a console log.") == "[Console] This is a console log."
  {
  }

  lemma FileUsage()
    ensures CreateLogger(File, Some(Options(Some("logs.txt")))) == Ok(FileLogger("logs.txt"))
    ensures LogLine(FileLogger("logs.txt"), "This is a file log.") == "[File] This is a file log.\n"
    ensures CreateLogger(File, None) == Err("File path is missing for FileLogger.")
    ensures CreateLogger(File, Some(Options(Some("")))) == Err("File path is missing for FileLogger.")
  {
  }
}
