/**
 * Metrics through the container tool: one `stats` call whose output, with
 * its trailing newlines removed, becomes the `result` of a success fragment.
 */
module Metrics {
  import opened Wrappers
  import opened Envelope
  import opened Sequences
  import opened Commands

  /** The Go template given to `stats --format`. */
  const StatsFormat: string :=
    "{\"cpu_perc\":\"{{ .CPUPerc }}\",\"mem_usage\":\"{{ .MemUsage }}\",\"mem_perc\":\"{{ .MemPerc }}\",\"net_io\":\"{{ .NetIO }}\",\"block_io\":\"{{ .BlockIO }}\",\"pids\":\"{{ .PIDs }}\"}"

  /** `metricsExecutorCommands`: the stats argument vector; only the service name varies. */
  function MetricsExecutorCommands(serviceName: string): (r: seq<string>)
    ensures |r| == 5 && r[1] == serviceName
    ensures r[..1] == ["stats"] && r[2..] == ["--no-stream", "--format", StatsFormat]
  {
    ["stats", serviceName, "--no-stream", "--format", StatsFormat]
  }

  /** `metricsSuccess`: a success fragment whose `result` is the given text, unquoted. */
  function RawMetricsSuccess(result: string): (r: string)
    ensures Success() + ",\"result\":" <= r && ParseFailure(r) == None
    ensures |r| == |Success()| + |",\"result\":"| + |result|
    ensures r[|r| - |result|..] == result
  {
    var head := Success() + ",\"result\":";
    AppendParts(head, result);
    assert Success() <= head + result by {
      AppendParts(Success(), ",\"result\":");
    }
    SuccessPrefixIsNotFailure(head + result);
    head + result
  }

  /** `strings.TrimRight(s, "\n")`: drops every trailing newline and nothing else. */
  function TrimTrailingNewlines(s: string): (r: string)
    ensures r <= s
    ensures r == [] || r[|r| - 1] != '\n'
    ensures forall i :: |r| <= i < |s| ==> s[i] == '\n'
    decreases |s|
  {
    if s != [] && s[|s| - 1] == '\n' then TrimTrailingNewlines(s[..|s| - 1]) else s
  }

  /** `s` with `n` newlines appended. */
  function WithNewlines(s: string, n: nat): (r: string)
    ensures |r| == |s| + n
  {
    if n == 0 then s else WithNewlines(s, n - 1) + ['\n']
  }

  /** Trimming returns the text without its newline tail, whatever the number of newlines. */
  lemma {:induction false} TrimUndoesNewlines(s: string, n: nat)
    requires s == [] || s[|s| - 1] != '\n'
    ensures TrimTrailingNewlines(WithNewlines(s, n)) == s
  {
    var w := WithNewlines(s, n);
    if n == 0 {
      assert w == s;
    } else {
      var w' := WithNewlines(s, n - 1);
      assert w[|w| - 1] == '\n' && w[..|w| - 1] == w' by {
        assert w == w' + ['\n'];
      }
      assert TrimTrailingNewlines(w) == TrimTrailingNewlines(w');
      TrimUndoesNewlines(s, n - 1);
    }
  }

  /** Every text is its trimmed form followed by newlines only. */
  lemma {:induction false} TrimSplitsText(s: string)
    ensures s == WithNewlines(TrimTrailingNewlines(s), |s| - |TrimTrailingNewlines(s)|)
    decreases |s|
  {
    if s != [] && s[|s| - 1] == '\n' {
      var s' := s[..|s| - 1];
      TrimSplitsText(s');
      assert s == s' + ['\n'];
    }
  }

  /** Trimming a second time changes nothing. */
  lemma TrimIsIdempotent(s: string)
    ensures TrimTrailingNewlines(TrimTrailingNewlines(s)) == TrimTrailingNewlines(s)
  {
  }

  /**
   * `gatherMetrics`: one executor call with the stats arguments. A failed call
   * gives a failure carrying the error text, whatever the output; otherwise
   * the success fragment ends with the output minus its trailing newlines.
   */
  function GatherMetrics(serviceName: string, ex: Executor): (r: Run<string>)
    ensures r.calls == [MetricsExecutorCommands(serviceName)]
    ensures ParseFailure(r.value) == ex(0).err
    ensures ex(0).err.None? ==>
              var trimmed := TrimTrailingNewlines(ex(0).output);
              && Success() + ",\"result\":" <= r.value
              && |r.value| == |Success()| + |",\"result\":"| + |trimmed|
              && r.value[|r.value| - |trimmed|..] == trimmed
              && r.value[|r.value| - 1] != '\n'
  {
    var reply := ex(0);
    var value :=
      match reply.err
      case Some(e) => Failure(e)
      case None => RawMetricsSuccess(TrimTrailingNewlines(reply.output));
    Run(value, [MetricsExecutorCommands(serviceName)])
  }
}
