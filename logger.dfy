/**
 * The logging chain of Logger/Logger.py. Each logger owns one level and one
 * writer; a message at the logger's level is written by that writer, any
 * other level is passed to the next logger, and the last logger reports the
 * level as not handled.
 */
module LoggerChain {

  datatype LogLevel = Info | Debug | Error | Warning

  /** The concrete logger classes; each writes with its own prefix. */
  datatype Writer = InfoWriter | DebugWriter | ErrorWriter

  datatype Logger = Logger(level: LogLevel, writer: Writer)

  /** What one `log` call prints. */
  datatype Outcome =
    | Written(writer: Writer, message: string)       // "[INFO]: ...", "[DEBUG]: ...", "[ERROR]: ..."
    | Unhandled(level: LogLevel, message: string) // "Log level <name> not handled: ..."

  /** Index of the first logger in the chain that owns `level`, if any. */
  function Owner(chain: seq<Logger>, level: LogLevel): (r: int)
    ensures -1 <= r < |chain|
    ensures r >= 0 ==> chain[r].level == level && forall j :: 0 <= j < r ==> chain[j].level != level
    ensures r == -1 <==> forall j :: 0 <= j < |chain| ==> chain[j].level != level
  {
    if chain == [] then -1
    else if chain[0].level == level then 0
    else
      var k := Owner(chain[1..], level);
      if k == -1 then -1 else k + 1
  }

  /** `log` called on the head of a non-empty chain. */
  function Log(chain: seq<Logger>, level: LogLevel, message: string): (out: Outcome)
    requires chain != []
    ensures out.Written? <==> exists j :: 0 <= j < |chain| && chain[j].level == level
    ensures out.Written? ==> out.writer == chain[Owner(chain, level)].writer && out.message == message
    ensures out.Unhandled? ==> out == Unhandled(level, message)
    decreases |chain|
  {
    if level == chain[0].level then Written(chain[0].writer, message)
    else if |chain| > 1 then
      var out := Log(chain[1..], level, message);
      assert out.Written? ==> Owner(chain, level) == Owner(chain[1..], level) + 1;
      out
    else Unhandled(level, message)
  }

  /**
   * Loggers appended after one that owns the level are never consulted.
   */
  lemma {:induction false} LaterLoggersIrrelevant(chain: seq<Logger>, rest: seq<Logger>, level: LogLevel, message: string)
    requires chain != [] && exists j :: 0 <= j < |chain| && chain[j].level == level
    ensures Log(chain + rest, level, message) == Log(chain, level, message)
    decreases |chain|
  {
    if level != chain[0].level {
      assert (chain + rest)[1..] == chain[1..] + rest;
      LaterLoggersIrrelevant(chain[1..], rest, level, message);
    }
  }

  /** The configured chain: error, then debug, then info. */
  const Configured: seq<Logger> := [Logger(Error, ErrorWriter), Logger(Debug, DebugWriter), Logger(Info, InfoWriter)]

  lemma ConfiguredChainOutput()
    ensures Log(Configured, Info, "This is an info message.") == Written(InfoWriter, "This is an info message.")
    ensures Log(Configured, Debug, "Debugging application.") == Written(DebugWriter, "Debugging application.")
    ensures Log(Configured, Error, "An error occurred!") == Written(ErrorWriter, "An error occurred!")
    ensures Log(Configured, Warning, "This is a warning.") == Unhandled(Warning, "This is a warning.")
  {
  }
}
