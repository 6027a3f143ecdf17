/** The structured logger of workers/src/services/logService.ts. The console
    and the remote endpoint are modelled as the lists of entries written to
    each; JSON serialisation and the HTTP post are not part of this model.
    The clock reading is the parameter `now`, in milliseconds. */
module LogService {
  import opened Wrappers

  datatype LogLevel = DEBUG | INFO | WARN | ERROR

  /** The enum's numeric value. */
  function Rank(l: LogLevel): (r: nat)
    ensures r <= 3
    ensures r == 0 <==> l == DEBUG
    ensures r == 3 <==> l == ERROR
  {
    match l
    case DEBUG => 0
    case INFO => 1
    case WARN => 2
    case ERROR => 3
  }

  /** `LogLevel[level]`: the enum member's name. */
  function Name(l: LogLevel): string {
    match l
    case DEBUG => "DEBUG"
    case INFO => "INFO"
    case WARN => "WARN"
    case ERROR => "ERROR"
  }

  /** The name identifies the level, and levels are ordered by value. */
  lemma NameAndRank(a: LogLevel, b: LogLevel)
    ensures Name(a) == Name(b) <==> a == b
    ensures Rank(a) == Rank(b) <==> a == b
  {
  }

  /** A context value; `Undefined` stands for a key whose value is `undefined`. */
  datatype Value = Str(s: string) | Undefined

  type Context = map<string, Value>

  /** `Error`: its message and optional stack. */
  datatype ErrorInfo = ErrorInfo(message: string, stack: Option<string>)

  datatype LogEntry = LogEntry(timestamp: int, level: string, message: string, context: Option<Context>)

  /** An entry at `level` is written under the threshold `threshold`. */
  predicate Passes(threshold: LogLevel, level: LogLevel) {
    Rank(level) >= Rank(threshold)
  }

  /** An entry at `level` also goes to the remote endpoint. */
  predicate SendsRemotely(enableRemote: bool, remoteUrl: Option<string>, level: LogLevel) {
    enableRemote && Truthy(remoteUrl) && Rank(level) >= Rank(ERROR)
  }

  /** Only errors go out, and nothing goes out unless remote logging is on
      with a non-empty address; an error passes every threshold. */
  lemma RemoteGate(enableRemote: bool, remoteUrl: Option<string>, level: LogLevel, threshold: LogLevel)
    ensures SendsRemotely(enableRemote, remoteUrl, level) <==> enableRemote && Truthy(remoteUrl) && level == ERROR
    ensures Passes(threshold, ERROR)
    ensures Passes(threshold, level) <==> !(Rank(level) < Rank(threshold))
  {
  }

  /** The default threshold INFO drops debug entries and keeps the rest. */
  lemma DefaultThreshold(level: LogLevel)
    ensures Passes(INFO, level) <==> level != DEBUG
  {
  }

  /** `{ ...context, error: err?.message, stack: err?.stack }` */
  function ErrorContext(context: Option<Context>, err: Option<ErrorInfo>): (r: Context)
    ensures "error" in r && "stack" in r
    ensures r["error"] == (if err.Some? then Str(err.value.message) else Undefined)
    ensures r["stack"] == (if err.Some? && err.value.stack.Some? then Str(err.value.stack.value) else Undefined)
    ensures forall k :: k in r && k != "error" && k != "stack" <==> context.Some? && k in context.value && k != "error" && k != "stack"
    ensures forall k :: k in r && k != "error" && k != "stack" ==> r[k] == context.value[k]
  {
    var base := if context.Some? then context.value else map[];
    base["error" := if err.Some? then Str(err.value.message) else Undefined]
        ["stack" := if err.Some? && err.value.stack.Some? then Str(err.value.stack.value) else Undefined]
  }

  class Logger {
    var level: LogLevel
    const enableRemote: bool
    const remoteUrl: Option<string>
    /** Entries written to the console, in order. */
    var console: seq<LogEntry>
    /** Entries posted to the remote endpoint, in order. */
    var remote: seq<LogEntry>

    /** `level ?? INFO` keeps an explicit DEBUG; `enableRemote ?? false`. */
    constructor (optLevel: Option<LogLevel>, optEnableRemote: Option<bool>, optRemoteUrl: Option<string>)
      ensures level == optLevel.GetOr(INFO)
      ensures enableRemote == optEnableRemote.GetOr(false) && remoteUrl == optRemoteUrl
      ensures console == [] && remote == []
    {
      level := optLevel.GetOr(INFO);
      enableRemote := optEnableRemote.GetOr(false);
      remoteUrl := optRemoteUrl;
      console, remote := [], [];
    }

    /** `log`: an entry below the threshold is dropped completely; otherwise
        it is written to the console and, when the remote gate holds, sent
        remotely too. */
    method Log(entryLevel: LogLevel, message: string, context: Option<Context>, now: int)
      modifies this
      ensures level == old(level)
      ensures !Passes(level, entryLevel) ==> console == old(console) && remote == old(remote)
      ensures Passes(level, entryLevel) ==> console == old(console) + [LogEntry(now, Name(entryLevel), message, context)]
      ensures Passes(level, entryLevel) && SendsRemotely(enableRemote, remoteUrl, entryLevel) ==>
                remote == old(remote) + [LogEntry(now, Name(entryLevel), message, context)]
      ensures !SendsRemotely(enableRemote, remoteUrl, entryLevel) ==> remote == old(remote)
    {
      if Rank(entryLevel) < Rank(level) {
        return;
      }
      var entry := LogEntry(now, Name(entryLevel), message, context);
      console := console + [entry];
      if enableRemote && Truthy(remoteUrl) && Rank(entryLevel) >= Rank(ERROR) {
        remote := remote + [entry];
      }
    }

    method Debug(message: string, context: Option<Context>, now: int)
      modifies this
      ensures level == old(level) && remote == old(remote)
      ensures console == if Passes(level, DEBUG) then old(console) + [LogEntry(now, "DEBUG", message, context)] else old(console)
    {
      Log(DEBUG, message, context, now);
    }

    method Info(message: string, context: Option<Context>, now: int)
      modifies this
      ensures level == old(level) && remote == old(remote)
      ensures console == if Passes(level, INFO) then old(console) + [LogEntry(now, "INFO", message, context)] else old(console)
    {
      Log(INFO, message, context, now);
    }

    method Warn(message: string, context: Option<Context>, now: int)
      modifies this
      ensures level == old(level) && remote == old(remote)
      ensures console == if Passes(level, WARN) then old(console) + [LogEntry(now, "WARN", message, context)] else old(console)
    {
      Log(WARN, message, context, now);
    }

    /** `error`: always written, the error's message and stack merged into
        the context; sent remotely when the gate is open. */
    method Error(message: string, err: Option<ErrorInfo>, context: Option<Context>, now: int)
      modifies this
      ensures level == old(level)
      ensures console == old(console) + [LogEntry(now, "ERROR", message, Some(ErrorContext(context, err)))]
      ensures remote == if enableRemote && Truthy(remoteUrl) then old(remote) + [LogEntry(now, "ERROR", message, Some(ErrorContext(context, err)))]
                        else old(remote)
    {
      Log(ERROR, message, Some(ErrorContext(context, err)), now);
    }

    /** `setLevel`: later calls use the new threshold; nothing written so far changes. */
    method SetLevel(newLevel: LogLevel)
      modifies this
      ensures level == newLevel && console == old(console) && remote == old(remote)
    {
      level := newLevel;
    }
  }
}
