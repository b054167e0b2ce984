/**
 * The retry loop around the enrichment service (`analyze_gene_list`). The
 * service itself is not modelled: what each numbered attempt gives is a
 * parameter, and the pauses between attempts are recorded instead of slept.
 */
module EnrichmentClient {
  import opened Wrappers
  import opened Text
  import opened ClusterReport

  /**
   * What one attempt gives: the service raised (any exception, `WebFault`
   * included), or it answered with a cluster report, which may itself be `None`.
   */
  datatype Attempt = Failed | Answered(report: Option<seq<Cluster>>)

  /** What `analyze_gene_list` returns, how many attempts it made and the pauses it slept, in order. */
  datatype Outcome = Outcome(report: Option<seq<Cluster>>, attempts: nat, sleeps: seq<real>)

  /** The pauses `wait * first, ..., wait * (last - 1)`, in order. */
  function Pauses(wait: real, first: nat, last: nat): (r: seq<real>)
    ensures |r| == if first < last then last - first else 0
    decreases last - first
  {
    if first >= last then [] else [wait * first as real] + Pauses(wait, first + 1, last)
  }

  /**
   * The attempts from number `attempt` on, of at most `retries`: the first
   * answer is returned; a failure before the last attempt is followed by a
   * pause of `wait * attempt`; the last failure gives up with `None`.
   */
  function AttemptsFrom(service: nat -> Attempt, attempt: nat, retries: int, wait: real): Outcome
    requires attempt >= 1
    decreases if retries >= attempt then retries - attempt + 1 else 0
  {
    if attempt > retries then Outcome(None, attempt - 1, [])
    else match service(attempt)
      case Answered(r) => Outcome(r, attempt, [])
      case Failed =>
        if attempt < retries then
          var rest := AttemptsFrom(service, attempt + 1, retries, wait);
          Outcome(rest.report, rest.attempts, [wait * attempt as real] + rest.sleeps)
        else Outcome(None, attempt, [])
  }

  /** The whole retry loop, `for attempt in range(1, retries + 1)`. */
  function Retry(service: nat -> Attempt, retries: int, wait: real): Outcome {
    AttemptsFrom(service, 1, retries, wait)
  }

  /** An outcome preceded by the pauses already slept. */
  function After(slept: seq<real>, o: Outcome): Outcome {
    o.(sleeps := slept + o.sleeps)
  }

  /** `analyze_gene_list`: ask the service up to `retries` times, pausing longer after each failure. */
  method AnalyzeGeneList(service: nat -> Attempt, retries: int, wait: real)
    returns (report: Option<seq<Cluster>>, attempts: nat, sleeps: seq<real>)
    requires wait >= 0.0
    ensures Outcome(report, attempts, sleeps) == Retry(service, retries, wait)
  {
    report, attempts, sleeps := None, 0, [];
    var attempt := 1;
    while attempt <= retries
      invariant attempt >= 1 && attempts == attempt - 1
      invariant attempt > 1 ==> attempt <= retries
      invariant Retry(service, retries, wait) == After(sleeps, AttemptsFrom(service, attempt, retries, wait))
      decreases retries - attempt
    {
      attempts := attempt;
      match service(attempt)
      case Answered(r) =>
        report := r;
        return;
      case Failed =>
        if attempt < retries {
          var rest := AttemptsFrom(service, attempt + 1, retries, wait);
          assert AttemptsFrom(service, attempt, retries, wait).sleeps == [wait * attempt as real] + rest.sleeps;
          assert sleeps + ([wait * attempt as real] + rest.sleeps) == (sleeps + [wait * attempt as real]) + rest.sleeps;
          assert After(sleeps, AttemptsFrom(service, attempt, retries, wait))
            == After(sleeps + [wait * attempt as real], rest);
          sleeps := sleeps + [wait * attempt as real];
        } else {
          report := None;
          return;
        }
      attempt := attempt + 1;
    }
  }

  /** The `i`-th pause of the run is `wait * (first + i)`. */
  lemma {:induction false} PauseAt(wait: real, first: nat, last: nat, i: nat)
    requires first + i < last
    ensures Pauses(wait, first, last)[i] == wait * (first + i) as real
    decreases i
  {
    if i > 0 {
      PauseAt(wait, first + 1, last, i - 1);
    }
  }

  /** From attempt `attempt` on, the loop stops within the allowed attempts and pauses after every attempt but its last. */
  lemma {:induction false} AttemptsBounded(service: nat -> Attempt, attempt: nat, retries: int, wait: real)
    requires 1 <= attempt
    ensures var o := AttemptsFrom(service, attempt, retries, wait);
      && (attempt <= retries ==> attempt <= o.attempts <= retries && o.sleeps == Pauses(wait, attempt, o.attempts))
      && (attempt > retries ==> o == Outcome(None, attempt - 1, []))
    decreases if retries >= attempt then retries - attempt + 1 else 0
  {
    if attempt < retries && service(attempt).Failed? {
      AttemptsBounded(service, attempt + 1, retries, wait);
    }
  }

  /**
   * Whatever the service does, the loop makes between 1 and `retries` attempts
   * (none when `retries <= 0`), and pauses `wait * 1, ..., wait * (a - 1)`
   * between its `a` attempts: no pause after the last one.
   */
  lemma RetryShape(service: nat -> Attempt, retries: int, wait: real)
    ensures var o := Retry(service, retries, wait);
      && (retries <= 0 ==> o == Outcome(None, 0, []))
      && (retries >= 1 ==> 1 <= o.attempts <= retries)
      && o.sleeps == Pauses(wait, 1, o.attempts)
  {
    AttemptsBounded(service, 1, retries, wait);
  }

  /**
   * `k` failures followed by an answer within the allowed attempts: the answer
   * is returned after exactly `k + 1` attempts and `k` pauses.
   */
  lemma FailuresThenAnswer(service: nat -> Attempt, retries: int, wait: real, k: nat)
    requires k + 1 <= retries
    requires forall a :: 1 <= a <= k ==> service(a) == Failed
    requires service(k + 1).Answered?
    ensures Retry(service, retries, wait) == Outcome(service(k + 1).report, k + 1, Pauses(wait, 1, k + 1))
  {
    FailuresFrom(service, 1, retries, wait, k);
  }

  lemma {:induction false} FailuresFrom(service: nat -> Attempt, attempt: nat, retries: int, wait: real, k: nat)
    requires 1 <= attempt <= k + 1 <= retries
    requires forall a :: attempt <= a <= k ==> service(a) == Failed
    requires service(k + 1).Answered?
    ensures AttemptsFrom(service, attempt, retries, wait)
      == Outcome(service(k + 1).report, k + 1, Pauses(wait, attempt, k + 1))
    decreases k + 1 - attempt
  {
    if attempt <= k {
      FailuresFrom(service, attempt + 1, retries, wait, k);
    }
  }

  /**
   * A service that always fails: the loop gives up with `None` after exactly
   * `retries` attempts (none when `retries <= 0`), having paused after every
   * attempt but the last.
   */
  lemma AlwaysFailing(service: nat -> Attempt, retries: int, wait: real)
    requires forall a :: 1 <= a <= retries ==> service(a) == Failed
    ensures Retry(service, retries, wait) == Outcome(None, Max(retries, 0), Pauses(wait, 1, Max(retries, 0)))
  {
    if retries >= 1 {
      FailingFrom(service, 1, retries, wait);
    }
  }

  lemma {:induction false} FailingFrom(service: nat -> Attempt, attempt: nat, retries: int, wait: real)
    requires 1 <= attempt <= retries
    requires forall a :: attempt <= a <= retries ==> service(a) == Failed
    ensures AttemptsFrom(service, attempt, retries, wait) == Outcome(None, retries, Pauses(wait, attempt, retries))
    decreases retries - attempt
  {
    if attempt < retries {
      FailingFrom(service, attempt + 1, retries, wait);
    }
  }
}
