/**
 * The two-phase lifecycle command of the executor package: run the
 * operation, then inspect the container and check its running state.
 *
 * The container tool is an oracle that answers the k-th call (counted from
 * 0) with `ex(k)`, as the scripted executor stub of the package's tests does;
 * every function returns, beside its value, the argument vectors it passed
 * to the tool, in call order.
 */
module Commands {
  import opened Wrappers
  import opened Envelope
  import opened Sequences

  /** The reply to one executor call: the tool's output and, when the call failed, the error's text. */
  datatype Reply = Reply(output: string, err: Option<string>)

  /** The container tool: the reply to the k-th call. */
  type Executor = nat -> Reply

  /** What decoding the inspect output yields: the decoder's error, or each container's running flag. */
  datatype Decoded = DecodeError(message: string) | Containers(running: seq<bool>)

  type Decoder = string -> Decoded

  /** A value, with the argument vectors passed to the executor to compute it. */
  datatype Run<T> = Run(value: T, calls: seq<seq<string>>)

  const Inspect: string := "inspect"

  // ---------------------------------------------------------------------------
  // Messages

  /** `strings.ReplaceAll(s, "\n", " ")`. */
  function ReplaceNewlines(s: string): (r: string)
    ensures |r| == |s|
    ensures forall i :: 0 <= i < |s| ==> r[i] == if s[i] == '\n' then ' ' else s[i]
    ensures '\n' !in r
  {
    if s == [] then []
    else [if s[0] == '\n' then ' ' else s[0]] + ReplaceNewlines(s[1..])
  }

  /** `messageExecutorCommandFailed`: the prefix, the error, then the command's output on one line, in parentheses. */
  function MessageExecutorCommandFailed(operationPrefix: string, result: string, errorMessage: string): (r: string)
    ensures operationPrefix + ": " + errorMessage + " (" <= r
    ensures |r| == |operationPrefix| + |errorMessage| + |result| + 5
    ensures r[|r| - |result| - 1..] == ReplaceNewlines(result) + ")"
    ensures '\n' in r ==> '\n' in operationPrefix || '\n' in errorMessage
  {
    var head := operationPrefix + ": " + errorMessage + " (";
    var r := head + (ReplaceNewlines(result) + ")");
    AppendParts(head, ReplaceNewlines(result) + ")");
    r
  }

  /** The messages of the inspect phase, each under the operation's prefix. */
  function MessageExecutorInspectFailed(operationPrefix: string, errorMessage: string): (r: string)
    ensures operationPrefix + ": " <= r && r[|operationPrefix| + 2..] == errorMessage
  {
    AppendParts(operationPrefix + ": ", errorMessage);
    operationPrefix + ": " + errorMessage
  }

  function MessageServiceIsNotRunningButShouldBe(operationPrefix: string): (r: string)
    ensures operationPrefix + ": " <= r && r[|operationPrefix| + 2..] == "service is not running but should be"
  {
    AppendParts(operationPrefix + ": ", "service is not running but should be");
    operationPrefix + ": " + "service is not running but should be"
  }

  function MessageServiceIsRunningButShouldNotBe(operationPrefix: string): (r: string)
    ensures operationPrefix + ": " <= r && r[|operationPrefix| + 2..] == "service is running but shouldn't be"
  {
    AppendParts(operationPrefix + ": ", "service is running but shouldn't be");
    operationPrefix + ": " + "service is running but shouldn't be"
  }

  /** The two directions of a running-state mismatch are worded differently under every prefix. */
  lemma RunningStateMessagesDiffer(operationPrefix: string)
    ensures MessageServiceIsNotRunningButShouldBe(operationPrefix) != MessageServiceIsRunningButShouldNotBe(operationPrefix)
  {
    var notRunning := MessageServiceIsNotRunningButShouldBe(operationPrefix);
    var running := MessageServiceIsRunningButShouldNotBe(operationPrefix);
    assert |notRunning[|operationPrefix| + 2..]| != |running[|operationPrefix| + 2..]|;
  }

  /** The inspect messages about the container count: never empty, and naming the service verbatim. */
  function MessageContainerNotFound(serviceName: string): (r: string)
    ensures "container " <= r && |r| == |serviceName| + 20
    ensures r[10..10 + |serviceName|] == serviceName && r[10 + |serviceName|..] == " not found"
  {
    var r := "container " + serviceName + " not found";
    assert r == "container " + (serviceName + " not found");
    r
  }

  function MessageMoreThanOneContainerFound(serviceName: string): (r: string)
    ensures "multiple containers found with name " <= r
    ensures |r| == |serviceName| + 36 && r[36..] == serviceName
  {
    "multiple containers found with name " + serviceName
  }

  /** The two messages differ for every pair of service names. */
  lemma ContainerCountMessagesDiffer(s1: string, s2: string)
    ensures MessageContainerNotFound(s1) != MessageMoreThanOneContainerFound(s2)
  {
    assert MessageContainerNotFound(s1)[0] != MessageMoreThanOneContainerFound(s2)[0];
  }

  // ---------------------------------------------------------------------------
  // Phase 2: inspect

  /** `isContainerRunning`'s pair: the running flag and an error text, empty when there is no error. */
  datatype Inspection = Inspection(running: bool, error: string)

  /**
   * `isContainerRunning`, making the inspect call as the k-th executor call.
   * A running container is only ever reported when the call succeeded and
   * decoded to exactly one container, which is running.
   */
  function IsContainerRunning(service: string, ex: Executor, k: nat, decode: Decoder): (r: Run<Inspection>)
    ensures r.calls == [[Inspect, service]]
    ensures r.value.running ==> ex(k).err.None? && decode(ex(k).output) == Containers([true])
    ensures r.value.error != "" ==> !r.value.running
  {
    var reply := ex(k);
    var inspection :=
      match reply.err
      case Some(e) => Inspection(false, e)
      case None =>
        match decode(reply.output)
        case DecodeError(e) => Inspection(false, e)
        case Containers(states) =>
          if |states| < 1 then Inspection(false, MessageContainerNotFound(service))
          else if |states| > 1 then Inspection(false, MessageMoreThanOneContainerFound(service))
          else
            assert states == [states[0]];
            Inspection(states[0], "");
    Run(inspection, [[Inspect, service]])
  }

  /** Go errors whose text is empty are possible but unusual; several properties assume they do not occur. */
  predicate ErrorTextsNonEmpty(reply: Reply, decode: Decoder) {
    && (reply.err.Some? ==> reply.err.value != "")
    && (reply.err.None? && decode(reply.output).DecodeError? ==> decode(reply.output).message != "")
  }

  /** The outcome of `isContainerRunning` for each kind of inspect reply. */
  lemma IsContainerRunningCases(service: string, ex: Executor, k: nat, decode: Decoder)
    ensures var r := IsContainerRunning(service, ex, k, decode).value;
            && (ex(k).err.Some? ==> r == Inspection(false, ex(k).err.value))
            && (ex(k).err.None? && decode(ex(k).output).DecodeError? ==> r == Inspection(false, decode(ex(k).output).message))
            && (ex(k).err.None? && decode(ex(k).output) == Containers([]) ==> r == Inspection(false, MessageContainerNotFound(service)))
            && (ex(k).err.None? && decode(ex(k).output).Containers? && |decode(ex(k).output).running| > 1 ==>
                  r == Inspection(false, MessageMoreThanOneContainerFound(service)))
            && (forall b :: ex(k).err.None? && decode(ex(k).output) == Containers([b]) ==> r == Inspection(b, ""))
  {
  }

  /** With non-empty error texts, the error is empty exactly when one container was decoded. */
  lemma InspectionErrorEmptyIffOneContainer(service: string, ex: Executor, k: nat, decode: Decoder)
    requires ErrorTextsNonEmpty(ex(k), decode)
    ensures var r := IsContainerRunning(service, ex, k, decode).value;
            r.error == "" <==> ex(k).err.None? && decode(ex(k).output).Containers? && |decode(ex(k).output).running| == 1
  {
    var states := decode(ex(k).output);
    if ex(k).err.None? && states.Containers? && |states.running| == 0 {
      assert MessageContainerNotFound(service)[0] == 'c';
    }
    if ex(k).err.None? && states.Containers? && |states.running| > 1 {
      assert MessageMoreThanOneContainerFound(service)[0] == 'm';
    }
  }

  // ---------------------------------------------------------------------------
  // The two phases

  /**
   * `executeACommand`: the operation as call 0 and, only when it succeeded,
   * the inspect as call 1. It succeeds exactly when the operation succeeded
   * and the inspection reads as the expected running state with no error;
   * every failure message starts with the operation's prefix.
   */
  function ExecuteACommand(operation: string, service: string, ex: Executor, decode: Decoder,
                           operationPrefix: string, shouldBeRunning: bool): (r: Run<string>)
    ensures 1 <= |r.calls| <= 2 && r.calls[0] == [operation, service]
    ensures |r.calls| == 2 ==> r.calls[1] == [Inspect, service]
    ensures |r.calls| == 1 <==> ex(0).err.Some?
    ensures r.value == Success() <==>
              ex(0).err.None? && IsContainerRunning(service, ex, 1, decode).value == Inspection(shouldBeRunning, "")
    ensures r.value != Success() ==> ParseFailure(r.value).Some? && operationPrefix + ": " <= ParseFailure(r.value).value
  {
    var first := ex(0);
    if first.err.Some? then
      Run(Failure(MessageExecutorCommandFailed(operationPrefix, first.output, first.err.value)), [[operation, service]])
    else
      var inspection := IsContainerRunning(service, ex, 1, decode);
      var calls := [[operation, service]] + inspection.calls;
      var isRunning, errorMessage := inspection.value.running, inspection.value.error;
      if |errorMessage| > 0 then
        Run(Failure(MessageExecutorInspectFailed(operationPrefix, errorMessage)), calls)
      else if isRunning != shouldBeRunning then
        if isRunning then Run(Failure(MessageServiceIsRunningButShouldNotBe(operationPrefix)), calls)
        else Run(Failure(MessageServiceIsNotRunningButShouldBe(operationPrefix)), calls)
      else
        Run(Success(), calls)
  }

  /** When the operation itself fails, the output is folded into the message and nothing is inspected. */
  lemma FirstCallFailureSkipsInspect(operation: string, service: string, ex: Executor, decode: Decoder,
                                     operationPrefix: string, shouldBeRunning: bool)
    requires ex(0).err.Some?
    ensures ExecuteACommand(operation, service, ex, decode, operationPrefix, shouldBeRunning)
         == Run(Failure(MessageExecutorCommandFailed(operationPrefix, ex(0).output, ex(0).err.value)), [[operation, service]])
  {
  }

  /** An inspection error is reported under the operation's prefix. */
  lemma InspectFailureMessage(operation: string, service: string, ex: Executor, decode: Decoder,
                              operationPrefix: string, shouldBeRunning: bool)
    requires ex(0).err.None?
    requires IsContainerRunning(service, ex, 1, decode).value.error != ""
    ensures ExecuteACommand(operation, service, ex, decode, operationPrefix, shouldBeRunning).value
         == Failure(MessageExecutorInspectFailed(operationPrefix, IsContainerRunning(service, ex, 1, decode).value.error))
  {
  }

  /** A running state other than the expected one gets the message naming the actual state. */
  lemma RunningStateMismatchMessage(operation: string, service: string, ex: Executor, decode: Decoder,
                                    operationPrefix: string, shouldBeRunning: bool)
    requires ex(0).err.None? && ex(1).err.None?
    requires decode(ex(1).output) == Containers([!shouldBeRunning])
    ensures ExecuteACommand(operation, service, ex, decode, operationPrefix, shouldBeRunning).value
         == if shouldBeRunning then Failure(MessageServiceIsNotRunningButShouldBe(operationPrefix))
            else Failure(MessageServiceIsRunningButShouldNotBe(operationPrefix))
  {
  }

  /**
   * With non-empty error texts, the command succeeds exactly when both calls
   * succeed and the inspect output decodes to one container in the expected state.
   */
  lemma ExecuteACommandSucceedsIff(operation: string, service: string, ex: Executor, decode: Decoder,
                                   operationPrefix: string, shouldBeRunning: bool)
    requires ErrorTextsNonEmpty(ex(1), decode)
    ensures ExecuteACommand(operation, service, ex, decode, operationPrefix, shouldBeRunning).value == Success()
        <==> ex(0).err.None? && ex(1).err.None? && decode(ex(1).output) == Containers([shouldBeRunning])
  {
    InspectionErrorEmptyIffOneContainer(service, ex, 1, decode);
    var d := decode(ex(1).output);
    if ex(1).err.None? && d.Containers? && |d.running| == 1 {
      assert d == Containers([d.running[0]]);
    }
  }

  /**
   * A failed inspect call whose error text is empty reads as "not running":
   * a stop whose inspect call fails that way is reported as a success.
   */
  lemma EmptyInspectErrorReadsAsStopped(operation: string, service: string, ex: Executor, decode: Decoder,
                                        operationPrefix: string)
    requires ex(0).err.None? && ex(1).err == Some("")
    ensures ExecuteACommand(operation, service, ex, decode, operationPrefix, false).value == Success()
  {
  }
}
