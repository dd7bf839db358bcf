/** Logging settings of the service (pkg/log/log.go): validation of the
    settings loaded from the environment, and the accept-or-panic decision of
    SetupLogging over the supported formatters. */
module Log {
  import opened Wrappers

  /** Settings as loaded from the environment. */
  datatype Settings = Settings(level: string, format: string)

  /** The two errors Validate reports. */
  datatype SettingsError = LogLevelMissing | LogFormatMissing

  /** The text of the error Validate returns. */
  function ErrorMessage(e: SettingsError): string
  {
    match e
    case LogLevelMissing => "validate Settings: LogLevel missing"
    case LogFormatMissing => "validate Settings: LogFormat missing"
  }

  /** Settings.Validate: None is the nil error. The level is checked first. */
  function Validate(s: Settings): (err: Option<SettingsError>)
    ensures err.None? <==> |s.level| > 0 && |s.format| > 0
    ensures |s.level| == 0 ==> err == Some(LogLevelMissing)
    ensures |s.level| > 0 && |s.format| == 0 ==> err == Some(LogFormatMissing)
    ensures err.Some? ==>
      ErrorMessage(err.value) == if |s.level| == 0 then "validate Settings: LogLevel missing" else "validate Settings: LogFormat missing"
  {
    if |s.level| == 0 then Some(LogLevelMissing)
    else if |s.format| == 0 then Some(LogFormatMissing)
    else None
  }

  /** The logging levels of the logging library. */
  datatype Level = PanicLevel | FatalLevel | ErrorLevel | WarnLevel | InfoLevel | DebugLevel | TraceLevel

  /** The two output formatters the service supports. */
  datatype Formatter = JSONFormatter | TextFormatter

  /** supportedFormatters. */
  const SupportedFormatters: map<string, Formatter> := map["json" := JSONFormatter, "text" := TextFormatter]

  /** The library's level parser: the level, or the error message it reports. */
  type LevelParser = string -> Result<Level>

  const LevelPanicPrefix: string := "Could not parse log level configuration: "
  const FormatPanicPrefix: string := "Invalid log format: "

  /** How SetupLogging ends: configured, or a panic. A format panic happens after
      the parsed level was already applied. */
  datatype Setup =
    | Configured(level: Level, formatter: Formatter)
    | LevelPanic(message: string)
    | FormatPanic(levelApplied: Level, message: string)

  /** The decision of SetupLogging: the level is parsed first and a parse error
      panics; then the format must name a supported formatter or it panics. */
  function SetupOutcome(s: Settings, parse: LevelParser): (o: Setup)
    ensures o.Configured? <==> parse(s.level).Ok? && (s.format == "json" || s.format == "text")
    ensures o.Configured? ==> o.level == parse(s.level).value && o.formatter == SupportedFormatters[s.format]
    ensures parse(s.level).Err? ==> o == LevelPanic(LevelPanicPrefix + parse(s.level).error)
    ensures parse(s.level).Ok? && s.format != "json" && s.format != "text" ==>
      o == FormatPanic(parse(s.level).value, FormatPanicPrefix + s.format)
  {
    match parse(s.level)
    case Err(e) => LevelPanic(LevelPanicPrefix + e)
    case Ok(level) =>
      if s.format in SupportedFormatters then Configured(level, SupportedFormatters[s.format])
      else FormatPanic(level, FormatPanicPrefix + s.format)
  }

  /** An unparsable level panics before the format is looked at: the outcome does
      not depend on the format. */
  lemma LevelCheckedBeforeFormat(level: string, format1: string, format2: string, parse: LevelParser)
    requires parse(level).Err?
    ensures SetupOutcome(Settings(level, format1), parse) == SetupOutcome(Settings(level, format2), parse)
  {
  }

  /** Validate does not look at the format's value: settings that pass it can
      still make SetupLogging panic on the format. */
  lemma ValidSettingsCanStillPanic(parse: LevelParser)
    requires parse("info") == Ok(InfoLevel)
    ensures Validate(Settings("info", "yaml")).None?
    ensures SetupOutcome(Settings("info", "yaml"), parse) == FormatPanic(InfoLevel, "Invalid log format: yaml")
  {
  }

  /** The global logger state SetupLogging writes. */
  class Logger {
    var level: Level
    var formatter: Formatter

    constructor (level: Level, formatter: Formatter)
      ensures this.level == level && this.formatter == formatter
    {
      this.level := level;
      this.formatter := formatter;
    }

    /** SetupLogging: parse and apply the level, then look up and apply the
        formatter. Returns the panic message, if it panics. */
    method SetupLogging(settings: Settings, parse: LevelParser) returns (panicked: Option<string>)
      modifies this
      ensures var o := SetupOutcome(settings, parse);
        match o
        case Configured(l, f) => panicked == None && level == l && formatter == f
        case LevelPanic(m) => panicked == Some(m) && level == old(level) && formatter == old(formatter)
        case FormatPanic(l, m) => panicked == Some(m) && level == l && formatter == old(formatter)
    {
      var parsed := parse(settings.level);
      if parsed.Err? {
        return Some(LevelPanicPrefix + parsed.error);
      }
      level := parsed.value;
      if settings.format !in SupportedFormatters {
        return Some(FormatPanicPrefix + settings.format);
      }
      formatter := SupportedFormatters[settings.format];
      panicked := None;
    }
  }
}
