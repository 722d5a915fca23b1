/** pkg/logger/logger.go: the level gate of each logging method, the decoding
    of the output flags in NewLogger, and Close. The text a call writes and the
    global state of Go's `log` package are not modelled. */
module Logging {
  import opened Common

  /** LogLevel is a uint8. */
  newtype LogLevel = x: int | 0 <= x < 256

  const DEBUG: LogLevel := 0
  const INFO: LogLevel := 1
  const WARN: LogLevel := 2
  const ERROR: LogLevel := 3
  const FATAL: LogLevel := 4

  /** OutputTypeFlag is a uint (64 bits wide on the targets Go builds for). */
  type OutputTypeFlag = bv64

  const STD: OutputTypeFlag := 1 << 0
  const FILE: OutputTypeFlag := 1 << 1

  /** The ten logging methods of ILogger. */
  datatype LogCall =
    | Debug | DebugF
    | Info | InfoF
    | Warn | WarnF
    | ErrorCall | ErrorF
    | Fatal | FatalF

  /** The level a call is tagged with ("[DEBUG]", "[INFO]", ...). */
  function Severity(call: LogCall): LogLevel
  {
    match call
    case Debug | DebugF => DEBUG
    case Info | InfoF => INFO
    case Warn | WarnF => WARN
    case ErrorCall | ErrorF => ERROR
    case Fatal | FatalF => FATAL
  }

  /** Whether a call on a logger of `level` writes its line: the guard of each
      method as it is written (Debug and DebugF test equality, the others <=). */
  predicate Emits(level: LogLevel, call: LogCall)
  {
    match call
    case Debug | DebugF => level == DEBUG
    case Info | InfoF => level <= INFO
    case Warn | WarnF => level <= WARN
    case ErrorCall | ErrorF => level <= ERROR
    case Fatal | FatalF => level <= FATAL
  }

  lemma LevelsOrdered()
    ensures DEBUG == 0 && DEBUG < INFO < WARN < ERROR < FATAL && FATAL == 4
  {
  }

  /** Debug and DebugF write iff the level is DEBUG. */
  lemma DebugOnlyAtDebug(level: LogLevel)
    ensures Emits(level, Debug) <==> level == DEBUG
    ensures Emits(level, DebugF) <==> level == DEBUG
  {
  }

  /** A call of severity s writes iff level <= s (for Debug the equality test
      amounts to the same, since no level is below DEBUG). */
  lemma EmitsIffAtMostSeverity(level: LogLevel, call: LogCall)
    ensures Emits(level, call) <==> level <= Severity(call)
  {
  }

  /** A level above FATAL silences every call. */
  lemma AboveFatalSilent(level: LogLevel, call: LogCall)
    requires level > FATAL
    ensures !Emits(level, call)
  {
  }

  /** Lowering the level never silences a call that was written. */
  lemma EmitsMonotone(low: LogLevel, high: LogLevel, call: LogCall)
    requires low <= high && Emits(high, call)
    ensures Emits(low, call)
  {
  }

  /** The formatted and the plain variant of a level gate alike. */
  lemma FormattedAgreesWithPlain(level: LogLevel)
    ensures Emits(level, Debug) == Emits(level, DebugF)
    ensures Emits(level, Info) == Emits(level, InfoF)
    ensures Emits(level, Warn) == Emits(level, WarnF)
    ensures Emits(level, ErrorCall) == Emits(level, ErrorF)
    ensures Emits(level, Fatal) == Emits(level, FatalF)
  {
  }

  /** A writer the logger's output fans out to. */
  datatype Sink = Stdout | LogFile(path: string)

  /** What Close does: the no-op closure, or the Close of the opened log file. */
  datatype Closer = NoOpClose | CloseFile(path: string)

  /** The writers NewLogger collects into `outs`, in the order it appends them. */
  function Outputs(outputType: OutputTypeFlag, path: string): (outs: seq<Sink>)
    ensures Stdout in outs <==> outputType & STD != 0
    ensures LogFile(path) in outs <==> outputType & FILE != 0
    ensures forall s :: s in outs ==> s == Stdout || s == LogFile(path)
    ensures |outs| <= 2
    ensures |outs| == 2 ==> outs == [Stdout, LogFile(path)]
  {
    (if outputType & STD != 0 then [Stdout] else [])
    + (if outputType & FILE != 0 then [LogFile(path)] else [])
  }

  /** Only the two low bits of the flag word are consulted. */
  lemma OutputsIgnoreHighBits(outputType: OutputTypeFlag, path: string)
    ensures Outputs(outputType, path) == Outputs(outputType & 3, path)
  {
  }

  /** With no flag set, `outs` is empty and the MultiWriter discards every line. */
  lemma NoFlagNoSink(path: string)
    ensures Outputs(0, path) == []
    ensures Outputs(STD | FILE, path) == [Stdout, LogFile(path)]
  {
  }

  class Logger {
    var level: LogLevel
    /** The struct's `output` field. No logging call reads it: every call
        writes through the global `log` package, whose writer is stderr
        unless some NewLogger has installed its own `outputs` with
        log.SetOutput. */
    var outputs: seq<Sink>
    var closer: Closer

    /** The struct literal both constructors start from: stdout and a no-op close. */
    constructor (level: LogLevel)
      ensures this.level == level && outputs == [Stdout] && closer == NoOpClose
    {
      this.level := level;
      outputs := [Stdout];
      closer := NoOpClose;
    }

    /** Close: nil for the no-op closure, else whatever closing the file returns
        (`fileCloseResult`); `closed` names the file that was closed, if any. */
    method Close(fileCloseResult: Option<Error>) returns (err: Option<Error>, closed: Option<string>)
      ensures closer == NoOpClose ==> err == None && closed == None
      ensures closer.CloseFile? ==> err == fileCloseResult && closed == Some(closer.path)
    {
      match closer
      case NoOpClose =>
        err, closed := None, None;
      case CloseFile(path) =>
        err, closed := fileCloseResult, Some(path);
    }
  }

  /** DefaultLogger: level DEBUG, stdout, no-op close. Stdout is only the
      field's value: DefaultLogger does not call log.SetOutput, so its lines
      go wherever the global `log` writer points, stderr by default. */
  method DefaultLogger() returns (l: Logger)
    ensures fresh(l)
    ensures l.level == DEBUG && l.outputs == [Stdout] && l.closer == NoOpClose
  {
    l := new Logger(DEBUG);
  }

  /** NewLogger. `fileOpens` is whether os.OpenFile succeeds on `outputPath`;
      when file output is asked for and it fails, log.Fatal ends the process,
      which the model returns as null. */
  method NewLogger(level: LogLevel, outputType: OutputTypeFlag, outputPath: string, fileOpens: bool)
    returns (l: Logger?)
    ensures l == null <==> (outputType & FILE != 0 && !fileOpens)
    ensures l != null ==> fresh(l) && l.level == level
    ensures l != null ==> l.outputs == Outputs(outputType, outputPath)
    ensures l != null ==> l.closer == if outputType & FILE != 0 then CloseFile(outputPath) else NoOpClose
  {
    l := new Logger(level);
    var outs: seq<Sink> := [];
    if outputType & STD != 0 {
      outs := outs + [Stdout];
    }
    if outputType & FILE != 0 {
      if !fileOpens {
        return null;
      }
      l.closer := CloseFile(outputPath);
      outs := outs + [LogFile(outputPath)];
    }
    l.outputs := outs;
  }
}
