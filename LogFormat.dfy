/** Record routing and formatter choice in `utils/logging/logging.py`: the
    exact-level `SeverityFilter`, the branches of `JsonFormatter`,
    `ColoredJsonFormatter` and the three level-aware formatters
    `setup_logger` defines, and which handlers a record reaches. What a
    rendering looks like (timestamps, `json.dumps`, ANSI codes) is not
    modelled: a `Rendering` only says which branch produced it. */
module LogFormat {
  import opened LogConfig

  /** The format string a `logging.Formatter` was built with: the default
      `%(message)s`, or the `asctime - [name] levelname - message` layout. */
  datatype Layout = MessageOnly | Standard

  /** Which branch rendered a record. */
  datatype Rendering =
    | JsonContext        // the indented JSON block describing an exception
    | ErrorLine          // the `timestamp - [name] ERROR -  message` line without exception
    | Plain(layout: Layout)  // `logging.Formatter.format`
    | LevelColored       // `colorlog.ColoredFormatter`
    | Red(inner: Rendering)  // wrapped in the red and reset escape codes

  /** `SeverityFilter(level).filter`: only records of exactly that level pass. */
  predicate SeverityPasses(level: int, levelno: int)
  {
    levelno == level
  }

  /** `JsonFormatter.format` for a formatter built with `layout`: the special
      renderings only at level ERROR, the base format at every other level. */
  function JsonFormat(layout: Layout, levelno: int, hasException: bool): (r: Rendering)
    ensures r == JsonContext <==> levelno == ERROR && hasException
    ensures r == ErrorLine <==> levelno == ERROR && !hasException
    ensures levelno != ERROR ==> r == Plain(layout)
  {
    if levelno == ERROR then (if hasException then JsonContext else ErrorLine)
    else Plain(layout)
  }

  /** `ColoredJsonFormatter.format` (built with the default format): the
      JSON formatter's output, wrapped in red at level ERROR only. */
  function ColoredJsonFormat(levelno: int, hasException: bool): (r: Rendering)
    ensures r.Red? <==> levelno == ERROR
    ensures r.Red? ==> r.inner == JsonFormat(MessageOnly, levelno, hasException)
    ensures !r.Red? ==> r == JsonFormat(MessageOnly, levelno, hasException)
  {
    var formatted := JsonFormat(MessageOnly, levelno, hasException);
    if levelno == ERROR then Red(formatted) else formatted
  }

  /** `ConsoleLevelAwareFormatter.format`: level ERROR goes to the coloured
      JSON formatter, every other level to `colorlog`. */
  function ConsoleFormat(levelno: int, hasException: bool): Rendering
  {
    if levelno == ERROR then ColoredJsonFormat(levelno, hasException) else LevelColored
  }

  /** `FileLevelAwareFormatter.format` and `CompleteLogLevelAwareFormatter.format`
      (the two are the same): levels from ERROR up go to the default-format
      JSON formatter, the others to the standard layout. */
  function FileFormat(levelno: int, hasException: bool): Rendering
  {
    if levelno >= ERROR then JsonFormat(MessageOnly, levelno, hasException) else Plain(Standard)
  }

  /** The severity files use a JSON formatter built with the standard layout. */
  function SeverityFileFormat(levelno: int, hasException: bool): Rendering
  {
    JsonFormat(Standard, levelno, hasException)
  }

  /** Whether a rendering came from one of the error branches. */
  predicate IsErrorRendering(r: Rendering)
  {
    r.JsonContext? || r.ErrorLine? || (r.Red? && IsErrorRendering(r.inner))
  }

  /** The console colours exactly the ERROR records red, and renders them
      with the error branches; every other level goes through `colorlog`. */
  lemma ConsoleRouting(levelno: int, hasException: bool)
    ensures ConsoleFormat(levelno, hasException).Red? <==> levelno == ERROR
    ensures levelno == ERROR ==> IsErrorRendering(ConsoleFormat(levelno, hasException))
    ensures levelno != ERROR ==> ConsoleFormat(levelno, hasException) == LevelColored
  {
  }

  /** The file formatters send every level from ERROR up to the JSON
      formatter, but only ERROR itself gets an error rendering: a CRITICAL
      record falls through to the JSON formatter's default format, the bare
      message, while levels below ERROR keep the standard layout. */
  lemma FileRouting(levelno: int, hasException: bool)
    ensures IsErrorRendering(FileFormat(levelno, hasException)) <==> levelno == ERROR
    ensures levelno > ERROR ==> FileFormat(levelno, hasException) == Plain(MessageOnly)
    ensures levelno < ERROR ==> FileFormat(levelno, hasException) == Plain(Standard)
  {
  }

  /** Only ERROR is ever written as JSON, whichever handler writes it. */
  lemma OnlyErrorIsJson(levelno: int, hasException: bool)
    ensures ConsoleFormat(levelno, hasException) == Red(JsonContext)
            <==> levelno == ERROR && hasException
    ensures FileFormat(levelno, hasException) == JsonContext <==> levelno == ERROR && hasException
    ensures SeverityFileFormat(levelno, hasException) == JsonContext <==> levelno == ERROR && hasException
  {
  }

  /** The handlers a logger can carry. Sizes are in bytes. */
  datatype Handler =
    | ConsoleHandler
    | LogFileHandler(path: string, maxBytes: int, backupCount: int)
    | CompleteLogHandler(path: string, maxBytes: int, backupCount: int)
    | SeverityHandler(levelName: string, level: int, path: string, maxBytes: int, backupCount: int)

  /** Whether a record of level `levelno`, logged through a logger set to
      `loggerLevel`, is emitted by handler `h`: the logger drops records
      below its level; the console and file handlers have no level of
      their own; a severity handler has both a level and a `SeverityFilter`
      for that level. */
  predicate Receives(h: Handler, loggerLevel: int, levelno: int)
  {
    && levelno >= loggerLevel
    && (h.SeverityHandler? ==> levelno >= h.level && SeverityPasses(h.level, levelno))
  }

  /** How handler `h` renders a record. */
  function Render(h: Handler, levelno: int, hasException: bool): Rendering
  {
    match h
    case ConsoleHandler => ConsoleFormat(levelno, hasException)
    case LogFileHandler(_, _, _) => FileFormat(levelno, hasException)
    case CompleteLogHandler(_, _, _) => FileFormat(levelno, hasException)
    case SeverityHandler(_, _, _, _, _) => SeverityFileFormat(levelno, hasException)
  }

  /** A severity handler receives the records of exactly its own level
      (when the logger lets them through): the WARNING file never sees an
      ERROR record. */
  lemma SeverityHandlerExact(h: Handler, loggerLevel: int, levelno: int)
    requires h.SeverityHandler?
    ensures Receives(h, loggerLevel, levelno) <==> levelno == h.level && levelno >= loggerLevel
  {
  }

  /** Two severity handlers of different levels never receive the same record. */
  lemma SeverityHandlersDisjoint(h1: Handler, h2: Handler, loggerLevel: int, levelno: int)
    requires h1.SeverityHandler? && h2.SeverityHandler? && h1.level != h2.level
    ensures !(Receives(h1, loggerLevel, levelno) && Receives(h2, loggerLevel, levelno))
  {
  }

  /** The console, log file and complete log receive every record the
      logger lets through. */
  lemma SharedHandlersReceiveAll(h: Handler, loggerLevel: int, levelno: int)
    requires !h.SeverityHandler?
    ensures Receives(h, loggerLevel, levelno) <==> levelno >= loggerLevel
  {
  }

  /** What the three severity files hold: WARNING and CRITICAL records in
      the standard layout, ERROR records in the error renderings. */
  lemma SeverityFileContents(hasException: bool)
    ensures SeverityFileFormat(WARNING, hasException) == Plain(Standard)
    ensures IsErrorRendering(SeverityFileFormat(ERROR, hasException))
    ensures SeverityFileFormat(CRITICAL, hasException) == Plain(Standard)
  {
  }
}
