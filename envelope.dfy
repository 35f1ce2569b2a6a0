/**
 * The result envelope builders of the executor package: plain string
 * concatenation, with no escaping of the inserted values.
 */
module Envelope {
  import opened Wrappers
  import opened Sequences

  /** True when `t` occurs in `s` starting at index `i`. */
  predicate ContainsAt(s: string, t: string, i: nat) {
    i + |t| <= |s| && s[i..i + |t|] == t
  }

  /** True when `t` occurs somewhere in `s`. */
  predicate Contains(s: string, t: string) {
    exists i: nat | i <= |s| :: ContainsAt(s, t, i)
  }

  predicate QuoteFree(s: string) {
    '"' !in s
  }

  lemma ContainsAtConcat(a: string, t: string, b: string)
    ensures ContainsAt(a + t + b, t, |a|)
  {
    assert (a + t + b)[|a|..|a| + |t|] == t;
  }

  // ---------------------------------------------------------------------------
  // Outcome fragments

  /** What precedes the message in a failure fragment. */
  const FailureHead: string := "\"success\":false,\"errorMessage\":\""

  /** The outcome fragment `success()`. */
  function Success(): (r: string)
    ensures ParseFailure(r) == None
    ensures !Contains(r, "\"errorMessage\"")
  {
    var r := "\"success\":true";
    var t := "\"errorMessage\"";
    assert |r| == |t| && r[1] != t[1];
    assert !ContainsAt(r, t, 0) by {
      assert r[0..|t|][1] != t[1];
    }
    assert forall i: nat | 0 < i :: !ContainsAt(r, t, i);
    r
  }

  /** The outcome fragment `Failure(errorMessage)`: the message is inserted verbatim. */
  function Failure(errorMessage: string): (r: string)
    ensures FailureHead <= r && r[|r| - 1] == '"'
    ensures |r| == |FailureHead| + |errorMessage| + 1
    ensures ParseFailure(r) == Some(errorMessage)
    ensures r != Success()
  {
    FailureHead + errorMessage + "\""
  }

  /** The inverse of `Failure`: the message of a failure fragment, `None` for any other text. */
  function ParseFailure(r: string): (m: Option<string>)
    ensures m.Some? ==> FailureHead <= r && |r| == |FailureHead| + |m.value| + 1
  {
    if |FailureHead| < |r| && r[..|FailureHead|] == FailureHead && r[|r| - 1] == '"'
    then Some(r[|FailureHead|..|r| - 1])
    else None
  }

  /** `ParseFailure` only accepts what `Failure` builds, so a failure fragment carries exactly one message. */
  lemma ParseFailureOnlyAcceptsFailures(r: string, m: string)
    requires ParseFailure(r) == Some(m)
    ensures r == Failure(m)
  {
    var k := |FailureHead|;
    assert r == r[..k] + r[k..|r| - 1] + [r[|r| - 1]];
  }

  /** No text that begins like a success fragment is a failure fragment. */
  lemma SuccessPrefixIsNotFailure(r: string)
    requires Success() <= r
    ensures ParseFailure(r) == None
  {
    if |FailureHead| < |r| {
      assert r[10] == Success()[10] == 't';
      assert r[..|FailureHead|][10] == 't' != FailureHead[10];
    }
  }

  // ---------------------------------------------------------------------------
  // The metrics result object

  /** `success()` followed by the opening of the `result` object. */
  const MetricsHead: string := Success() + ",\"result\":{"
  const CpuKey: string := "\"cpuUsedPercent\":"
  const MemoryKey: string := "\"memoryUsed\":"
  const RawKey: string := "\"raw\":"

  /**
   * `MetricsSuccess(cpu, mem, raw)`: the success fragment with a `result`
   * object whose three values are inserted unquoted and unmodified.
   */
  function MetricsSuccess(cpuUsedPercent: string, memoryUsed: string, raw: string): (r: string)
    ensures MetricsHead <= r && Success() <= r && r[|r| - 1] == '}'
    ensures ParseFailure(r) == None
  {
    var rest := CpuKey + cpuUsedPercent + "," + (MemoryKey + memoryUsed + ",") + (RawKey + raw + "}");
    var r := MetricsHead + rest;
    AppendParts(MetricsHead, rest);
    assert Success() <= r by {
      AppendParts(Success(), ",\"result\":{");
    }
    SuccessPrefixIsNotFailure(r);
    r
  }

  /** The text following `MetricsHead` in a metrics success fragment. */
  lemma MetricsSuccessSplits(cpuUsedPercent: string, memoryUsed: string, raw: string)
    ensures MetricsSuccess(cpuUsedPercent, memoryUsed, raw)
         == MetricsHead + (CpuKey + cpuUsedPercent + ",") + (MemoryKey + memoryUsed + ",") + (RawKey + raw + "}")
  {
  }

  /**
   * The three keys of the `result` object follow each other in this order,
   * each with its value right after it, unquoted and unmodified.
   */
  lemma MetricsSuccessLayout(cpuUsedPercent: string, memoryUsed: string, raw: string)
    ensures var r := MetricsSuccess(cpuUsedPercent, memoryUsed, raw);
            var cpuAt := |MetricsHead|;
            var memAt := cpuAt + |CpuKey| + |cpuUsedPercent| + 1;
            var rawAt := memAt + |MemoryKey| + |memoryUsed| + 1;
            && ContainsAt(r, CpuKey + cpuUsedPercent + ",", cpuAt)
            && ContainsAt(r, MemoryKey + memoryUsed + ",", memAt)
            && ContainsAt(r, RawKey + raw + "}", rawAt)
            && |r| == rawAt + |RawKey| + |raw| + 1
  {
    var r := MetricsSuccess(cpuUsedPercent, memoryUsed, raw);
    var cpu, mem, rawPart := CpuKey + cpuUsedPercent + ",", MemoryKey + memoryUsed + ",", RawKey + raw + "}";
    var cpuAt := |MetricsHead|;
    var memAt := cpuAt + |CpuKey| + |cpuUsedPercent| + 1;
    var rawAt := memAt + |MemoryKey| + |memoryUsed| + 1;
    assert ContainsAt(r, cpu, cpuAt) by {
      MetricsSuccessSplits(cpuUsedPercent, memoryUsed, raw);
      SecondOfFour(MetricsHead, cpu, mem, rawPart);
    }
    assert ContainsAt(r, mem, memAt) by {
      MetricsSuccessSplits(cpuUsedPercent, memoryUsed, raw);
      ThirdOfFour(MetricsHead, cpu, mem, rawPart);
    }
    assert ContainsAt(r, rawPart, rawAt) && |r| == rawAt + |rawPart| by {
      MetricsSuccessSplits(cpuUsedPercent, memoryUsed, raw);
      FourthOfFour(MetricsHead, cpu, mem, rawPart);
    }
  }

  lemma SecondOfFour(head: string, a: string, b: string, c: string)
    ensures ContainsAt(head + a + b + c, a, |head|)
  {
    ContainsAtConcat(head, a, b + c);
    assert head + a + (b + c) == head + a + b + c;
  }

  lemma ThirdOfFour(head: string, a: string, b: string, c: string)
    ensures ContainsAt(head + a + b + c, b, |head| + |a|)
  {
    ContainsAtConcat(head + a, b, c);
  }

  lemma FourthOfFour(head: string, a: string, b: string, c: string)
    ensures ContainsAt(head + a + b + c, c, |head| + |a| + |b|)
  {
    ContainsAtConcat(head + a + b, c, []);
    assert head + a + b + c + [] == head + a + b + c;
  }

  // ---------------------------------------------------------------------------
  // The envelope

  const OperationKey: string := "{\"operation\":\""
  const ServiceKey: string := "\",\"service\":\""
  const ExecutorKey: string := "\",\"executor\":\""
  const ResultSeparator: string := "\","

  /** The number of characters `CreateResult` adds around its four arguments. */
  const EnvelopeOverhead: nat := |OperationKey| + |ServiceKey| + |ExecutorKey| + |ResultSeparator| + 1

  /** `CreateResult(operation, service, executorType, result)`: the envelope around an outcome fragment. */
  function CreateResult(operation: string, service: string, executorType: string, result: string): (r: string)
    ensures OperationKey + operation <= r
    ensures |r| == |operation| + |service| + |executorType| + |result| + EnvelopeOverhead
    ensures r[|r| - |result| - 1..] == result + "}"
  {
    var r := OperationKey + operation + ServiceKey + service + ExecutorKey + executorType + ResultSeparator + result + "}";
    assert r[|r| - |result| - 1..] == result + "}" by {
      assert r == (OperationKey + operation + ServiceKey + service + ExecutorKey + executorType + ResultSeparator) + (result + "}");
    }
    r
  }

  lemma Nest(k1: string, a: string, k2: string, b: string, k3: string, c: string, k4: string, d: string, k5: string)
    ensures k1 + a + k2 + b + k3 + c + k4 + d + k5 == k1 + a + (k2 + b + (k3 + c + (k4 + d + k5)))
  {
  }

  /** `CreateResult` as a key and value followed by the envelope's remaining text. */
  lemma CreateResultNested(operation: string, service: string, executorType: string, result: string)
    ensures CreateResult(operation, service, executorType, result)
         == OperationKey + operation + (ServiceKey + service + (ExecutorKey + executorType + (ResultSeparator + result + "}")))
  {
    Nest(OperationKey, operation, ServiceKey, service, ExecutorKey, executorType, ResultSeparator, result, "}");
  }

  /** The four values an envelope was built from. */
  datatype Fields = Fields(operation: string, service: string, executorType: string, result: string)

  /** The index of the first quote in `s`, or `|s|` when there is none. */
  function FirstQuote(s: string): (k: nat)
    ensures k <= |s|
    ensures QuoteFree(s[..k])
    ensures k < |s| ==> s[k] == '"'
  {
    if s == [] then 0
    else if s[0] == '"' then 0
    else
      var k := 1 + FirstQuote(s[1..]);
      assert s[..k] == [s[0]] + s[1..][..k - 1];
      k
  }

  lemma {:induction false} FirstQuoteAfterQuoteFree(a: string, b: string)
    requires QuoteFree(a) && b != [] && b[0] == '"'
    ensures FirstQuote(a + b) == |a|
  {
    if a != [] {
      assert (a + b)[1..] == a[1..] + b;
      FirstQuoteAfterQuoteFree(a[1..], b);
    }
  }

  /** Splits `s` before its first quote. */
  function SplitAtQuote(s: string): (r: (string, string))
    ensures r.0 + r.1 == s && QuoteFree(r.0)
  {
    var k := FirstQuote(s);
    (s[..k], s[k..])
  }

  /** Expects `key` at the start of `s`, then splits the rest before its first quote. */
  function ExpectAndSplit(key: string, s: string): (r: Option<(string, string)>)
    ensures r.Some? ==> s == key + r.value.0 + r.value.1 && QuoteFree(r.value.0)
  {
    if key <= s then
      AppendParts(key, s[|key|..]);
      assert s == key + s[|key|..];
      Some(SplitAtQuote(s[|key|..]))
    else None
  }

  lemma {:induction false} ExpectAndSplitOf(key: string, a: string, b: string)
    requires QuoteFree(a) && b != [] && b[0] == '"'
    ensures ExpectAndSplit(key, key + a + b) == Some((a, b))
  {
    assert key + a + b == key + (a + b);
    AppendParts(key, a + b);
    SplitAtQuoteOf(a, b);
  }

  /** Expects `ResultSeparator`, then takes everything up to a final closing brace. */
  function ExpectResult(s: string): (r: Option<string>)
    ensures r.Some? ==> s == ResultSeparator + r.value + "}"
  {
    if |ResultSeparator| < |s| && s[..|ResultSeparator|] == ResultSeparator && s[|s| - 1] == '}'
    then
      var v := s[|ResultSeparator|..|s| - 1];
      assert s == s[..|ResultSeparator|] + v + [s[|s| - 1]];
      Some(v)
    else None
  }

  /**
   * Reads the four values back out of an envelope, taking each of the first
   * three up to the next quote. `None` for text that is not an envelope.
   */
  function ParseEnvelope(r: string): (f: Option<Fields>)
    ensures f.Some? ==> r == CreateResult(f.value.operation, f.value.service, f.value.executorType, f.value.result)
  {
    match ExpectAndSplit(OperationKey, r)
    case None => None
    case Some((operation, rest1)) =>
      match ExpectAndSplit(ServiceKey, rest1)
      case None => None
      case Some((service, rest2)) =>
        match ExpectAndSplit(ExecutorKey, rest2)
        case None => None
        case Some((executorType, rest3)) =>
          match ExpectResult(rest3)
          case None => None
          case Some(result) =>
            CreateResultNested(operation, service, executorType, result);
            Some(Fields(operation, service, executorType, result))
  }

  lemma SplitAtQuoteOf(a: string, b: string)
    requires QuoteFree(a) && b != [] && b[0] == '"'
    ensures SplitAtQuote(a + b) == (a, b)
  {
    FirstQuoteAfterQuoteFree(a, b);
    assert (a + b)[..|a|] == a;
    assert (a + b)[|a|..] == b;
  }

  /**
   * When operation, service and executor type hold no quote, the envelope
   * can be read back into exactly the values it was built from.
   */
  lemma EnvelopeRoundTrip(operation: string, service: string, executorType: string, result: string)
    requires QuoteFree(operation) && QuoteFree(service) && QuoteFree(executorType)
    ensures ParseEnvelope(CreateResult(operation, service, executorType, result))
            == Some(Fields(operation, service, executorType, result))
  {
    var tail3 := ResultSeparator + result + "}";
    var tail2 := ExecutorKey + executorType + tail3;
    var tail1 := ServiceKey + service + tail2;
    CreateResultNested(operation, service, executorType, result);
    assert tail1[0] == '"' && tail2[0] == '"' && tail3[0] == '"';
    ExpectAndSplitOf(OperationKey, operation, tail1);
    ExpectAndSplitOf(ServiceKey, service, tail2);
    ExpectAndSplitOf(ExecutorKey, executorType, tail3);
    ExpectResultOf(result);
  }

  lemma ExpectResultOf(result: string)
    ensures ExpectResult(ResultSeparator + result + "}") == Some(result)
  {
    var s := ResultSeparator + result + "}";
    assert s[..|ResultSeparator|] == ResultSeparator;
    assert s[|ResultSeparator|..|s| - 1] == result;
  }

  /**
   * Without escaping, a quote inside the operation can stand in for the
   * service key: two different requests can produce the same envelope.
   */
  lemma CreateResultIsAmbiguousWithQuotes(executorType: string, result: string)
    ensures var op1, svc1 := "a" + ServiceKey + "b", "c";
            var op2, svc2 := "a", "b" + ServiceKey + "c";
            && op1 != op2
            && CreateResult(op1, svc1, executorType, result) == CreateResult(op2, svc2, executorType, result)
  {
    var op1, svc1 := "a" + ServiceKey + "b", "c";
    var op2, svc2 := "a", "b" + ServiceKey + "c";
    assert |op1| != |op2|;
    var tail := ExecutorKey + executorType + (ResultSeparator + result + "}");
    CreateResultNested(op1, svc1, executorType, result);
    CreateResultNested(op2, svc2, executorType, result);
    assert op1 + ServiceKey + svc1 == op2 + ServiceKey + svc2;
    Rejoin(OperationKey, op1, svc1, op2, svc2, ServiceKey, tail);
  }

  /** Two splits of the same middle text give the same whole. */
  lemma Rejoin(head: string, a1: string, b1: string, a2: string, b2: string, key: string, tail: string)
    requires a1 + key + b1 == a2 + key + b2
    ensures head + a1 + (key + b1 + tail) == head + a2 + (key + b2 + tail)
  {
    assert head + a1 + (key + b1 + tail) == head + (a1 + key + b1) + tail;
    assert head + a2 + (key + b2 + tail) == head + (a2 + key + b2) + tail;
  }
}
