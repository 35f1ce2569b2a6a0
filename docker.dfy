/**
 * The executor's entry point `Execute`: checks the argument count, then the
 * service key, then the operation, and routes to the lifecycle command or to
 * metrics. `executorType` is the executor identifier the envelope carries.
 */
module Docker {
  import opened Envelope
  import opened Commands
  import opened Metrics
  import opened ServiceKeys
  import opened Sequences

  const Start: string := "start"
  const Stop: string := "stop"
  const Restart: string := "restart"
  const MetricsOperation: string := "metrics"

  const FailedStartPrefix: string := "Error starting service"
  const FailedRestartPrefix: string := "Error restarting service"
  const FailedStopPrefix: string := "Error stopping service"

  /** The operations the executor supports. */
  const SupportedOperations: set<string> := {Start, Restart, Stop, MetricsOperation}

  /** The fixed messages hold no quote, so the failure fragments built from them need no escaping. */
  function MessageExecutorOperationNotSupported(): (r: string)
    ensures r != [] && QuoteFree(r)
  {
    "operation not supported by executor"
  }

  function MessageSpecifiedServiceIsUnknown(): (r: string)
    ensures r != [] && QuoteFree(r)
  {
    "Specified service is unknown"
  }

  const UsageHead: string := "Usage: ./"
  const UsageTail: string := " <service> <operation>\t\t" + "Start app with requested " + "{service} and {operation}\n"

  /**
   * The usage text: the program name verbatim after `Usage: ./`, then the
   * fixed description, ending in a newline. It holds a quote exactly when the
   * program name does.
   */
  function MessageMissingArguments(executableName: string): (r: string)
    ensures UsageHead + executableName <= r && r[|UsageHead| + |executableName|..] == UsageTail
    ensures r[|r| - 1] == '\n'
    ensures QuoteFree(r) <==> QuoteFree(executableName)
  {
    var r := UsageHead + executableName + UsageTail;
    AppendParts(UsageHead + executableName, UsageTail);
    UsageTextIsQuoteFree();
    InAppend3('"', UsageHead, executableName, UsageTail);
    r
  }

  /** The fixed parts of the usage text hold no quote, and it ends with a newline. */
  lemma UsageTextIsQuoteFree()
    ensures QuoteFree(UsageHead) && QuoteFree(UsageTail) && UsageTail[|UsageTail| - 1] == '\n'
  {
    assert QuoteFree(" <service> <operation>\t\t") && QuoteFree("Start app with requested ");
    assert QuoteFree("{service} and {operation}\n");
  }

  /**
   * `Execute(args, executor)`: `args` is the command line (program name,
   * service, operation). The executor is only called for a known service and
   * a supported operation, at most twice; for a known service the envelope
   * echoes the requested operation and service.
   */
  function Execute(args: seq<string>, ex: Executor, decode: Decoder, executorType: string): (r: Run<string>)
    requires |args| >= 1
    ensures |r.calls| <= 2
    ensures r.calls != [] ==> |args| > 2 && IsKnownServiceKey(args[1]) && args[2] in SupportedOperations
    ensures |args| > 2 && IsKnownServiceKey(args[1]) ==>
              OperationKey + args[2] + ServiceKey + args[1] + ExecutorKey + executorType + ResultSeparator <= r.value
  {
    if |args| > 2 then
      var service := args[1];
      if IsKnownServiceKey(service) then
        var operation := args[2];
        var outcome :=
          if operation == Start then ExecuteACommand(operation, service, ex, decode, FailedStartPrefix, true)
          else if operation == Restart then ExecuteACommand(operation, service, ex, decode, FailedRestartPrefix, true)
          else if operation == Stop then ExecuteACommand(operation, service, ex, decode, FailedStopPrefix, false)
          else if operation == MetricsOperation then GatherMetrics(service, ex)
          else Run(Failure(MessageExecutorOperationNotSupported()), []);
        EnvelopeEchoesRequest(operation, service, executorType, outcome.value);
        Run(CreateResult(operation, service, executorType, outcome.value), outcome.calls)
      else
        Run(CreateResult("", service, executorType, Failure(MessageSpecifiedServiceIsUnknown())), [])
    else
      Run(CreateResult("", "", executorType, Failure(MessageMissingArguments(args[0]))), [])
  }

  /** The envelope starts with its operation, service and executor fields, in that order. */
  lemma EnvelopeEchoesRequest(operation: string, service: string, executorType: string, result: string)
    ensures OperationKey + operation + ServiceKey + service + ExecutorKey + executorType + ResultSeparator
            <= CreateResult(operation, service, executorType, result)
  {
    var head := OperationKey + operation + ServiceKey + service + ExecutorKey + executorType + ResultSeparator;
    assert CreateResult(operation, service, executorType, result) == head + (result + "}");
  }

  /** Fewer than three arguments: the usage text, with no executor call. */
  lemma ExecuteMissingArguments(args: seq<string>, ex: Executor, decode: Decoder, executorType: string)
    requires 1 <= |args| <= 2
    ensures Execute(args, ex, decode, executorType)
         == Run(CreateResult("", "", executorType, Failure(MessageMissingArguments(args[0]))), [])
  {
  }

  /** An unknown service: an empty operation field, the unknown-service message, and no executor call. */
  lemma ExecuteUnknownService(args: seq<string>, ex: Executor, decode: Decoder, executorType: string)
    requires |args| > 2 && !IsKnownServiceKey(args[1])
    ensures Execute(args, ex, decode, executorType)
         == Run(CreateResult("", args[1], executorType, Failure(MessageSpecifiedServiceIsUnknown())), [])
  {
  }

  /** A known service with an unsupported operation: the operation is echoed, with no executor call. */
  lemma ExecuteUnsupportedOperation(args: seq<string>, ex: Executor, decode: Decoder, executorType: string)
    requires |args| > 2 && IsKnownServiceKey(args[1]) && args[2] !in SupportedOperations
    ensures Execute(args, ex, decode, executorType)
         == Run(CreateResult(args[2], args[1], executorType, Failure(MessageExecutorOperationNotSupported())), [])
  {
  }

  /**
   * The lifecycle operations: start and restart expect the container to be
   * running afterwards, stop expects it not to be; each has its own prefix.
   */
  lemma ExecuteLifecycleRouting(args: seq<string>, ex: Executor, decode: Decoder, executorType: string)
    requires |args| > 2 && IsKnownServiceKey(args[1]) && args[2] in {Start, Restart, Stop}
    ensures var prefix := if args[2] == Start then FailedStartPrefix
                          else if args[2] == Restart then FailedRestartPrefix
                          else FailedStopPrefix;
            var outcome := ExecuteACommand(args[2], args[1], ex, decode, prefix, args[2] != Stop);
            Execute(args, ex, decode, executorType) == Run(CreateResult(args[2], args[1], executorType, outcome.value), outcome.calls)
  {
  }

  /** Metrics: one executor call with the stats arguments, and no inspect. */
  lemma ExecuteMetricsRouting(args: seq<string>, ex: Executor, decode: Decoder, executorType: string)
    requires |args| > 2 && IsKnownServiceKey(args[1]) && args[2] == MetricsOperation
    ensures Execute(args, ex, decode, executorType)
         == Run(CreateResult(MetricsOperation, args[1], executorType, GatherMetrics(args[1], ex).value),
                [MetricsExecutorCommands(args[1])])
  {
  }

  lemma FailurePrefixesAreDistinct()
    ensures FailedStartPrefix != FailedRestartPrefix && FailedStartPrefix != FailedStopPrefix
    ensures FailedRestartPrefix != FailedStopPrefix
  {
  }

  /**
   * Start on a known service whose tool calls succeed and whose inspect shows
   * one running container: a success envelope, after exactly two calls.
   */
  lemma StartSucceedsWhenVerifiedRunning(service: string, ex: Executor, decode: Decoder, executorType: string)
    requires IsKnownServiceKey(service)
    requires ex(0).err.None? && ex(1).err.None? && decode(ex(1).output) == Containers([true])
    ensures Execute(["sma", service, Start], ex, decode, executorType)
         == Run(CreateResult(Start, service, executorType, Success()), [[Start, service], [Inspect, service]])
  {
  }

  /**
   * For a lifecycle operation that succeeded, the outcome is a success exactly
   * when the inspect shows one container in the state the operation expects
   * (given non-empty error texts).
   */
  lemma LifecycleSucceedsIffVerified(args: seq<string>, ex: Executor, decode: Decoder, executorType: string)
    requires |args| > 2 && IsKnownServiceKey(args[1]) && args[2] in {Start, Restart, Stop}
    requires ErrorTextsNonEmpty(ex(1), decode)
    ensures Execute(args, ex, decode, executorType).value == CreateResult(args[2], args[1], executorType, Success())
        <==> ex(0).err.None? && ex(1).err.None? && decode(ex(1).output) == Containers([args[2] != Stop])
  {
    var prefix := if args[2] == Start then FailedStartPrefix
                  else if args[2] == Restart then FailedRestartPrefix
                  else FailedStopPrefix;
    var outcome := ExecuteACommand(args[2], args[1], ex, decode, prefix, args[2] != Stop);
    ExecuteACommandSucceedsIff(args[2], args[1], ex, decode, prefix, args[2] != Stop);
    CreateResultIsInjectiveInResult(args[2], args[1], executorType, outcome.value, Success());
  }

  /** Envelopes with the same first three fields differ exactly when their outcome fragments do. */
  lemma CreateResultIsInjectiveInResult(operation: string, service: string, executorType: string, r1: string, r2: string)
    ensures CreateResult(operation, service, executorType, r1) == CreateResult(operation, service, executorType, r2) <==> r1 == r2
  {
    var head := OperationKey + operation + ServiceKey + service + ExecutorKey + executorType + ResultSeparator;
    var e1, e2 := CreateResult(operation, service, executorType, r1), CreateResult(operation, service, executorType, r2);
    assert e1 == head + (r1 + "}") && e2 == head + (r2 + "}");
    if e1 == e2 {
      assert e1[|head|..|e1| - 1] == r1;
      assert e2[|head|..|e2| - 1] == r2;
    }
  }

  /**
   * The first executor call carries the operation before the service name
   * (the package's tests expect the service name first).
   */
  lemma OperationPrecedesServiceInFirstCall(args: seq<string>, ex: Executor, decode: Decoder, executorType: string)
    requires |args| > 2 && IsKnownServiceKey(args[1]) && args[2] in {Start, Restart, Stop}
    ensures Execute(args, ex, decode, executorType).calls[0] == [args[2], args[1]]
  {
  }
}
