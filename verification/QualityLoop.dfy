/** The decision on an output, and the loop that executes until an output can be delivered. */
module QualityLoop {
  import opened Collections
  import opened JsonValues
  import opened Quality

  // ----- The decision -----

  datatype Decision = Deliver | Retry | Fail

  datatype Reason = EmptyOutput | SchemaInvalid(first: seq<Problem>) | SchemaValid

  datatype Report = Report(score: real, schemaValid: bool, decision: Decision, reason: Reason)

  function Score(errorCount: nat): real {
    if errorCount == 0 then 1.0
    else if errorCount == 1 then 0.7
    else if errorCount == 2 then 0.5
    else 0.3
  }

  /** `output` is Null also for a missing output. */
  function Judged(output: Data, schema: Schema, attempt: int, maxRetries: int): Report {
    var again := if attempt < maxRetries then Retry else Fail;
    var errors := Errors(Plain(output), schema, []);
    if output.Null? then Report(0.0, false, again, EmptyOutput)
    else if errors != [] then
      Report(Score(|errors|), false, again, SchemaInvalid(if |errors| < 3 then errors else errors[..3]))
    else Report(1.0, true, Deliver, SchemaValid)
  }

  method Check(output: Data, schema: Schema, attempt: int, maxRetries: int) returns (r: Report)
    ensures r == Judged(output, schema, attempt, maxRetries)
  {
    var again := if attempt < maxRetries then Retry else Fail;
    if output.Null? {
      return Report(0.0, false, again, EmptyOutput);
    }
    var errors := Validate(Plain(output), schema, []);
    if errors != [] {
      return Report(Score(|errors|), false, again, SchemaInvalid(if |errors| < 3 then errors else errors[..3]));
    }
    r := Report(1.0, true, Deliver, SchemaValid);
  }

  /** An output worth delivering. */
  ghost predicate Good(output: Data, schema: Schema) {
    !output.Null? && Conforms(Plain(output), schema)
  }

  /** Good outputs are delivered, with full score, and no others; the rest is retried while retries are left. */
  lemma DeliversExactlyTheGood(output: Data, schema: Schema, attempt: int, maxRetries: int)
    ensures var r := Judged(output, schema, attempt, maxRetries);
      && (r.decision == Deliver <==> Good(output, schema))
      && (r.decision == Retry <==> !Good(output, schema) && attempt < maxRetries)
      && (r.schemaValid <==> r.decision == Deliver)
      && (r.score == 1.0 <==> r.decision == Deliver)
      && (r.score == 0.0 <==> output.Null?)
  {
    hide Conforms, Errors;
    ErrorsIffNotConforming(Plain(output), schema, []);
  }

  /** A rejected output comes with one to three flaws it really has, with all of them if these are less than three, and
      with a score that falls with their number. */
  lemma RejectionNamesAFlaw(output: Data, schema: Schema, attempt: int, maxRetries: int)
    requires !output.Null? && !Good(output, schema)
    ensures var r := Judged(output, schema, attempt, maxRetries);
      && r.reason.SchemaInvalid?
      && 1 <= |r.reason.first| <= 3
      && (forall q :: q in r.reason.first ==> Flawed(Plain(output), schema, q.path, q.flaw))
      && (|r.reason.first| < 3 ==>
            forall path, flaw :: Flawed(Plain(output), schema, path, flaw) ==> Problem(path, flaw) in r.reason.first)
      && r.score == (if |r.reason.first| == 1 then 0.7 else if |r.reason.first| == 2 then 0.5 else 0.3)
  {
    hide Conforms, Errors, Flawed;
    ErrorsIffNotConforming(Plain(output), schema, []);
    var first := Judged(output, schema, attempt, maxRetries).reason.first;
    forall q | q in first ensures Flawed(Plain(output), schema, q.path, q.flaw) {
      ErrorsExact(Plain(output), schema, [], q);
      NotFound(Plain(output), schema, q.path, q.flaw);
    }
    if |first| < 3 {
      forall path, flaw | Flawed(Plain(output), schema, path, flaw) ensures Problem(path, flaw) in first {
        ErrorsExact(Plain(output), schema, [], Problem(path, flaw));
        NotFound(Plain(output), schema, path, flaw);
      }
    }
  }

  // ----- The loop -----

  datatype Execution = Execution(output: Data, costUsd: real, latencyMs: real)

  /** The executor: for the attempt and the reason of the previous rejection an execution, or None when it throws. */
  type Executor = (nat, Option<Reason>) -> Option<Execution>

  datatype Outcome =
    | Delivered(execution: Execution, report: Report, attempts: nat, costUsd: real, latencyMs: real)
    | Failed(lastReport: Option<Report>, attempts: nat, costUsd: real, latencyMs: real)
    | Thrown

  /** The execution of attempt a, each attempt being told why the one before was rejected. */
  function Attempt(executor: Executor, schema: Schema, maxRetries: int, a: nat): Option<Execution> {
    if a == 0 then executor(0, None)
    else
      match Attempt(executor, schema, maxRetries, a - 1)
      case None => None
      case Some(e) => executor(a, Some(Judged(e.output, schema, a - 1, maxRetries).reason))
  }

  /** The output is empty, or it has the flaws that are named. */
  ghost predicate ToldWhy(reason: Reason, output: Data, schema: Schema) {
    && (reason.EmptyOutput? <==> output.Null?)
    && (!output.Null? ==>
          && reason.SchemaInvalid? && reason.first != []
          && forall q :: q in reason.first ==> Flawed(Plain(output), schema, q.path, q.flaw))
  }

  /** A retry is told what is wrong with the output before it. */
  lemma RetryIsToldWhy(executor: Executor, schema: Schema, maxRetries: int, a: nat) returns (reason: Reason)
    requires Rejected(executor, schema, maxRetries, a)
    ensures Attempt(executor, schema, maxRetries, a + 1) == executor(a + 1, Some(reason))
    ensures ToldWhy(reason, Attempt(executor, schema, maxRetries, a).value.output, schema)
  {
    hide Conforms, Errors, Flawed;
    var output := Attempt(executor, schema, maxRetries, a).value.output;
    reason := Judged(output, schema, a, maxRetries).reason;
    if !output.Null? {
      RejectionNamesAFlaw(output, schema, a, maxRetries);
    }
  }

  ghost predicate Rejected(executor: Executor, schema: Schema, maxRetries: int, a: nat) {
    var e := Attempt(executor, schema, maxRetries, a);
    e.Some? && !Good(e.value.output, schema)
  }

  ghost predicate Accepted(executor: Executor, schema: Schema, maxRetries: int, a: nat) {
    var e := Attempt(executor, schema, maxRetries, a);
    e.Some? && Good(e.value.output, schema)
  }

  /** What the first n attempts cost. */
  function Cost(executor: Executor, schema: Schema, maxRetries: int, n: nat): real {
    if n == 0 then 0.0
    else Cost(executor, schema, maxRetries, n - 1) + CostOf(Attempt(executor, schema, maxRetries, n - 1))
  }

  function Latency(executor: Executor, schema: Schema, maxRetries: int, n: nat): real {
    if n == 0 then 0.0
    else Latency(executor, schema, maxRetries, n - 1) + LatencyOf(Attempt(executor, schema, maxRetries, n - 1))
  }

  function CostOf(e: Option<Execution>): real {
    if e.Some? then e.value.costUsd else 0.0
  }

  function LatencyOf(e: Option<Execution>): real {
    if e.Some? then e.value.latencyMs else 0.0
  }

  function Costs(runs: seq<Execution>): real {
    if runs == [] then 0.0 else runs[0].costUsd + Costs(runs[1..])
  }

  function Latencies(runs: seq<Execution>): real {
    if runs == [] then 0.0 else runs[0].latencyMs + Latencies(runs[1..])
  }

  lemma {:induction false} SumsSnoc(runs: seq<Execution>, e: Execution)
    ensures Costs(runs + [e]) == Costs(runs) + e.costUsd && Latencies(runs + [e]) == Latencies(runs) + e.latencyMs
  {
    if runs == [] {
      assert runs + [e] == [e] && [e][1..] == [];
    } else {
      assert (runs + [e])[1..] == runs[1..] + [e];
      SumsSnoc(runs[1..], e);
    }
  }

  /** Attempts that do not throw: the first is made without a reason, and cost and latency are the plain sums. */
  lemma {:induction false} AttemptsAddUp(executor: Executor, schema: Schema, maxRetries: int, runs: seq<Execution>)
    requires forall a :: 0 <= a < |runs| ==> Attempt(executor, schema, maxRetries, a) == Some(runs[a])
    ensures runs != [] ==> executor(0, None) == Some(runs[0])
    ensures Cost(executor, schema, maxRetries, |runs|) == Costs(runs)
    ensures Latency(executor, schema, maxRetries, |runs|) == Latencies(runs)
  {
    if runs != [] {
      FirstAttempt(executor, schema, maxRetries);
      hide Attempt;
      var n := |runs| - 1;
      AttemptsAddUp(executor, schema, maxRetries, runs[..n]);
      assert runs == runs[..n] + [runs[n]];
      SumsSnoc(runs[..n], runs[n]);
    }
  }

  lemma FirstAttempt(executor: Executor, schema: Schema, maxRetries: int)
    ensures Attempt(executor, schema, maxRetries, 0) == executor(0, None)
  {
  }

  /** executeWithQuality.  `calls` counts the calls of the executor, `trailing` tells whether the code after the loop
      was reached. */
  method ExecuteWithQuality(executor: Executor, schema: Schema, maxRetries: int)
    returns (o: Outcome, calls: nat, trailing: bool)
    ensures calls <= if maxRetries < 0 then 0 else maxRetries + 1
    ensures forall a :: 0 <= a < calls - 1 ==> Rejected(executor, schema, maxRetries, a)
    ensures o.Delivered? <==> exists a :: 0 <= a <= maxRetries && Accepted(executor, schema, maxRetries, a)
    ensures o.Delivered? ==>
      && calls > 0
      && Attempt(executor, schema, maxRetries, calls - 1) == Some(o.execution)
      && Good(o.execution.output, schema)
      && o.report.decision == Deliver
    ensures o.Failed? <==> forall a :: 0 <= a <= maxRetries ==> Rejected(executor, schema, maxRetries, a)
    ensures o.Failed? && maxRetries >= 0 ==>
      calls == maxRetries + 1 && o.lastReport.Some? && o.lastReport.value.decision == Fail
    ensures !o.Thrown? ==>
      && o.attempts == calls
      && o.costUsd == Cost(executor, schema, maxRetries, calls)
      && o.latencyMs == Latency(executor, schema, maxRetries, calls)
    ensures o.Thrown? ==> calls > 0 && Attempt(executor, schema, maxRetries, calls - 1).None?
    ensures trailing <==> maxRetries < 0
  {
    hide Good, Judged;
    var attempt := 0;
    var previousError: Option<Reason>, lastReport: Option<Report> := None, None;
    var totalCostUsd, totalLatencyMs := 0.0, 0.0;
    trailing := false;
    while attempt <= maxRetries
      invariant attempt == 0 || attempt <= maxRetries
      invariant forall a :: 0 <= a < attempt ==> Rejected(executor, schema, maxRetries, a)
      invariant forall a :: 0 <= a < attempt ==> !Accepted(executor, schema, maxRetries, a)
      invariant Attempt(executor, schema, maxRetries, attempt) == executor(attempt, previousError)
      invariant totalCostUsd == Cost(executor, schema, maxRetries, attempt)
      invariant totalLatencyMs == Latency(executor, schema, maxRetries, attempt)
      decreases maxRetries - attempt
    {
      var execution := executor(attempt, previousError);
      calls := attempt + 1;
      if execution.None? {
        ThrownStays(executor, schema, maxRetries, attempt);
        assert !Rejected(executor, schema, maxRetries, attempt);
        return Thrown, calls, trailing;
      }
      totalCostUsd := totalCostUsd + execution.value.costUsd;
      totalLatencyMs := totalLatencyMs + execution.value.latencyMs;
      var report := Check(execution.value.output, schema, attempt, maxRetries);
      DeliversExactlyTheGood(execution.value.output, schema, attempt, maxRetries);
      lastReport := Some(report);
      if report.decision == Deliver {
        assert Accepted(executor, schema, maxRetries, attempt) && !Rejected(executor, schema, maxRetries, attempt);
        return Delivered(execution.value, report, attempt + 1, totalCostUsd, totalLatencyMs), calls, trailing;
      }
      assert Rejected(executor, schema, maxRetries, attempt) && !Accepted(executor, schema, maxRetries, attempt);
      if report.decision == Fail {
        return Failed(lastReport, attempt + 1, totalCostUsd, totalLatencyMs), calls, trailing;
      }
      previousError := Some(report.reason);
      attempt := attempt + 1;
    }
    trailing, calls := true, attempt;
    o := Failed(lastReport, attempt, totalCostUsd, totalLatencyMs);
  }

  /** Once the executor has thrown nothing later is accepted. */
  lemma {:induction false} ThrownStays(executor: Executor, schema: Schema, maxRetries: int, a: nat)
    requires Attempt(executor, schema, maxRetries, a).None?
    ensures forall b :: a <= b ==> !Accepted(executor, schema, maxRetries, b)
  {
    forall b | a <= b ensures !Accepted(executor, schema, maxRetries, b) {
      NoneAt(executor, schema, maxRetries, a, b);
    }
  }

  lemma {:induction false} NoneAt(executor: Executor, schema: Schema, maxRetries: int, a: nat, b: nat)
    requires a <= b && Attempt(executor, schema, maxRetries, a).None?
    ensures Attempt(executor, schema, maxRetries, b).None?
  {
    if a < b {
      NoneAt(executor, schema, maxRetries, a, b - 1);
    }
  }
}
