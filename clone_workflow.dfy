/** `cloneRepoWorkflow`: resolve the ref, then fetch that commit, each
    activity called through the one retry configuration the workflow declares.
    An activity is given as the outcome of each of its attempts; how Temporal
    spaces and schedules attempts (backoff, timeouts, durability) is not
    modelled, only that an activity is tried until it succeeds or has been
    tried `maximumAttempts` times. */
module CloneWorkflow {
  import opened Common
  import opened CloneTypes
  import opened GitProvider

  datatype RetryPolicy = RetryPolicy(maximumAttempts: nat, initialIntervalMs: nat, nonRetryableErrorTypes: seq<string>)
  datatype ActivityOptions = ActivityOptions(startToCloseTimeoutMs: nat, retry: RetryPolicy)

  /** The `proxyActivities` options both activities share: five minutes per
      attempt, at most three attempts, two seconds before the first retry, and
      no error type exempt from retrying. */
  const CloneActivityOptions := ActivityOptions(5 * 60 * 1000, RetryPolicy(3, 2000, []))

  /** An activity call's outcome and the number of attempts it took. */
  datatype Attempts<T> = Attempts(outcome: Result<T, string>, count: nat)

  /** Attempts `from`, `from + 1`, ... until one succeeds or `maxAttempts`
      have been made; every error is retried. */
  function RetryFrom<T>(maxAttempts: nat, attempt: nat -> Result<T, string>, from: nat): (r: Attempts<T>)
    requires from < maxAttempts
    ensures from < r.count <= maxAttempts
    ensures forall j :: from <= j < r.count - 1 ==> attempt(j).Err?
    ensures r.outcome == attempt(r.count - 1)
    ensures r.outcome.Err? ==> r.count == maxAttempts
    decreases maxAttempts - from
  {
    if attempt(from).Ok? || from + 1 == maxAttempts then Attempts(attempt(from), from + 1)
    else RetryFrom(maxAttempts, attempt, from + 1)
  }

  /** An activity called under the clone workflow's retry policy. */
  function WithRetry<T>(attempt: nat -> Result<T, string>): (r: Attempts<T>)
    ensures 1 <= r.count <= 3
    ensures r.outcome.Ok? <==> exists j :: 0 <= j < 3 && attempt(j).Ok?
    ensures r.outcome.Ok? ==> forall j :: 0 <= j < r.count - 1 ==> attempt(j).Err?
    ensures r.outcome.Err? ==> r.count == 3
    ensures r.outcome == attempt(r.count - 1)
  {
    var r := RetryFrom(CloneActivityOptions.retry.maximumAttempts, attempt, 0);
    assert r.outcome.Err? ==> forall j :: 0 <= j < 3 ==> attempt(j).Err? by {
      if r.outcome.Err? {
        forall j | 0 <= j < 3 ensures attempt(j).Err? {
          if j < 2 { } else { assert attempt(r.count - 1) == attempt(j); }
        }
      }
    }
    r
  }

  /** No error is exempt: a ref that is not found is looked up three times. */
  lemma RefNotFoundIsRetried(ref: string)
    ensures WithRetry<string>(_ => Err(NotFoundPrefix + ref)).count == 3
  {
  }

  /** One activity invocation as the workflow makes it, with its arguments
      and the number of attempts Temporal made. */
  datatype ActivityCall = ResolveCall(repoUrl: string, ref: string, attempts: nat)
                        | FetchCall(repoUrl: string, sha: string, attempts: nat)

  datatype WorkflowRun = WorkflowRun(outcome: Result<CloneResult, string>, calls: seq<ActivityCall>)

  /** `resolveCommit(repoUrl, ref)` attempt k, and `fetchSnapshot(repoUrl, sha)` attempt k. */
  type ResolveAttempts = (string, string, nat) -> Result<string, string>
  type FetchAttempts = (string, string, nat) -> Result<Snapshot, string>

  /** `cloneRepoWorkflow(input)`: the run's outcome is the resolve failure,
      else the fetch failure, else the resolved sha paired with the path that
      the fetch of exactly that sha returned. */
  function CloneRepoWorkflow(input: CloneInput, resolve: ResolveAttempts, fetch: FetchAttempts): (run: WorkflowRun)
    ensures var resolved := WithRetry(k => resolve(input.repoUrl, input.ref, k));
      resolved.outcome.Err? ==>
        run.outcome == Err(resolved.outcome.error) &&
        run.calls == [ResolveCall(input.repoUrl, input.ref, 3)]
    ensures var resolved := WithRetry(k => resolve(input.repoUrl, input.ref, k));
      resolved.outcome.Ok? ==>
        var sha := resolved.outcome.value;
        var fetched := WithRetry(k => fetch(input.repoUrl, sha, k));
        |run.calls| == 2 && run.calls[1] == FetchCall(input.repoUrl, sha, fetched.count) &&
        (fetched.outcome.Err? ==> run.outcome == Err(fetched.outcome.error)) &&
        (fetched.outcome.Ok? ==> run.outcome == Ok(CloneResult(sha, fetched.outcome.value.path)))
  {
    var resolved := WithRetry(k => resolve(input.repoUrl, input.ref, k));
    var first := ResolveCall(input.repoUrl, input.ref, resolved.count);
    match resolved.outcome
    case Err(e) => WorkflowRun(Err(e), [first])
    case Ok(sha) =>
      var fetched := WithRetry(k => fetch(input.repoUrl, sha, k));
      var second := FetchCall(input.repoUrl, sha, fetched.count);
      match fetched.outcome
      case Err(e) => WorkflowRun(Err(e), [first, second])
      case Ok(snapshot) => WorkflowRun(Ok(CloneResult(sha, snapshot.path)), [first, second])
  }

  /** Resolve runs first with exactly the input's url and ref; fetch runs only
      after resolution succeeded, with the same url and the resolved sha; a
      failed resolution is the workflow's failure and nothing is fetched. */
  lemma WorkflowOrder(input: CloneInput, resolve: ResolveAttempts, fetch: FetchAttempts)
    ensures var run := CloneRepoWorkflow(input, resolve, fetch);
      var resolved := WithRetry(k => resolve(input.repoUrl, input.ref, k));
      1 <= |run.calls| <= 2 &&
      run.calls[0].ResolveCall? && run.calls[0].repoUrl == input.repoUrl && run.calls[0].ref == input.ref &&
      (|run.calls| == 2 <==> resolved.outcome.Ok?) &&
      (resolved.outcome.Err? ==> run.outcome == Err(resolved.outcome.error)) &&
      (|run.calls| == 2 ==> run.calls[1].FetchCall? && run.calls[1].repoUrl == input.repoUrl &&
                            run.calls[1].sha == resolved.outcome.value)
  {
  }

  /** A completed workflow pairs the resolved sha with the path of the fetch
      made for that very sha: the first successful resolve attempt gives the
      sha, every earlier one failed, and likewise for the fetch; each activity
      was attempted one to three times. */
  lemma WorkflowResult(input: CloneInput, resolve: ResolveAttempts, fetch: FetchAttempts)
    ensures var run := CloneRepoWorkflow(input, resolve, fetch);
      (forall i :: 0 <= i < |run.calls| ==> 1 <= run.calls[i].attempts <= 3) &&
      (run.outcome.Ok? ==>
         var sha := run.outcome.value.sha;
         var r, f := run.calls[0].attempts, run.calls[1].attempts;
         |run.calls| == 2 && run.calls[1].sha == sha &&
         resolve(input.repoUrl, input.ref, r - 1) == Ok(sha) &&
         (forall j :: 0 <= j < r - 1 ==> resolve(input.repoUrl, input.ref, j).Err?) &&
         fetch(input.repoUrl, sha, f - 1).Ok? &&
         fetch(input.repoUrl, sha, f - 1).value.path == run.outcome.value.path &&
         (forall j :: 0 <= j < f - 1 ==> fetch(input.repoUrl, sha, j).Err?))
  {
    var run := CloneRepoWorkflow(input, resolve, fetch);
    var resolved := WithRetry(k => resolve(input.repoUrl, input.ref, k));
    if resolved.outcome.Ok? {
      var sha := resolved.outcome.value;
      var fetched := WithRetry(k => fetch(input.repoUrl, sha, k));
      assert resolve(input.repoUrl, input.ref, resolved.count - 1) == Ok(sha);
      assert fetch(input.repoUrl, sha, fetched.count - 1) == fetched.outcome;
    }
  }

  /** A fetch that still fails after its retries fails the workflow with its
      own error, after resolution succeeded. */
  lemma FetchFailureFailsWorkflow(input: CloneInput, resolve: ResolveAttempts, fetch: FetchAttempts)
    requires WithRetry(k => resolve(input.repoUrl, input.ref, k)).outcome.Ok?
    ensures var sha := WithRetry(k => resolve(input.repoUrl, input.ref, k)).outcome.value;
      var run := CloneRepoWorkflow(input, resolve, fetch);
      (forall j :: 0 <= j < 3 ==> fetch(input.repoUrl, sha, j).Err?) ==>
        run.outcome == Err(fetch(input.repoUrl, sha, 2).error) && |run.calls| == 2 &&
        run.calls[1] == FetchCall(input.repoUrl, sha, 3)
  {
    var sha := WithRetry(k => resolve(input.repoUrl, input.ref, k)).outcome.value;
    var fetched := WithRetry(k => fetch(input.repoUrl, sha, k));
    if forall j :: 0 <= j < 3 ==> fetch(input.repoUrl, sha, j).Err? {
      assert fetched.outcome.Err?;
    }
  }
}
