/** The decision logic of the GitHub client: which credentials it accepts,
    how creating a pull request retries, and how the conclusions of a
    commit's check suites are folded into one CI status. Every GitHub API
    call is an oracle: its answer is a parameter. */
module GithubClient {
  import opened Common

  /** What a PyGithub call raises: a `GithubException` with its HTTP
      status, the `message` of its data (None when the key is absent) and
      the messages of its `errors` list (an entry without one reads as ""),
      or any other exception. */
  datatype GithubError =
    | GithubException(status: int, message: Option<string>, errors: Option<seq<string>>)
    | OtherException(text: string)

  /** The answer of one API call. */
  datatype Fetch<T> = Fetched(value: T) | Failed(error: GithubError)

  // ------------------------------------------------------------ constructor

  datatype Client = Client(token: string, repoName: string)

  /** `token or os.getenv(...)`: the argument unless it is falsy. */
  function Either(given: Option<string>, env: Option<string>): Option<string> {
    if TruthyStr(given) then given else env
  }

  /** `GitHubClient.__init__`: `env*` are the environment variables and
      `connect` is what `Github(token).get_repo(name)` raised, if anything. */
  function NewClient(token: Option<string>, repoName: Option<string>, envToken: Option<string>,
                     envRepo: Option<string>, connect: Option<GithubError>): (r: Result<Client>)
    ensures r.Ok? <==> TruthyStr(Either(token, envToken)) && TruthyStr(Either(repoName, envRepo)) && connect.None?
    ensures r.Ok? ==> r.value == Client(Either(token, envToken).value, Either(repoName, envRepo).value)
    ensures !TruthyStr(token) && !TruthyStr(envToken) ==>
      r == Raised(Exc("ValueError", "GitHub token not provided and GITHUB_TOKEN environment variable is not set."))
    ensures TruthyStr(Either(token, envToken)) && !TruthyStr(repoName) && !TruthyStr(envRepo) ==>
      r == Raised(Exc("ValueError", "GitHub repository name not provided and GITHUB_REPOSITORY environment variable is not set."))
    ensures r.Raised? ==> r.exc.kind == "ValueError"
    ensures TruthyStr(Either(token, envToken)) && TruthyStr(Either(repoName, envRepo)) && connect.Some? ==>
      r == Raised(Exc("ValueError", ConnectFailure(connect.value)))
  {
    var t := Either(token, envToken);
    var n := Either(repoName, envRepo);
    if !TruthyStr(t) then
      Raised(Exc("ValueError", "GitHub token not provided and GITHUB_TOKEN environment variable is not set."))
    else if !TruthyStr(n) then
      Raised(Exc("ValueError", "GitHub repository name not provided and GITHUB_REPOSITORY environment variable is not set."))
    else match connect
      case None => Ok(Client(t.value, n.value))
      case Some(e) => Raised(Exc("ValueError", ConnectFailure(e)))
  }

  /** The ValueError text for a failed connection: the `message` of a
      GithubException's data as `dict.get` reads it (present, even empty,
      it is used; absent, "Unknown error"), or the text of any other
      exception. */
  function ConnectFailure(e: GithubError): (r: string)
    ensures e.GithubException? && e.message.Some? ==> r == "Failed to initialize GitHub client: " + e.message.value
    ensures e.GithubException? && e.message.None? ==> r == "Failed to initialize GitHub client: Unknown error"
    ensures e.OtherException? ==> r == "An unexpected error occurred: " + e.text
  {
    match e
    case GithubException(_, message, _) =>
      "Failed to initialize GitHub client: " + (if message.Some? then message.value else "Unknown error")
    case OtherException(text) => "An unexpected error occurred: " + text
  }

  // ---------------------------------------------------------- pull requests

  /** A server error worth another attempt. */
  predicate Transient(reply: Fetch<string>) {
    reply.Failed? && reply.error.GithubException? && reply.error.status in {500, 502, 503, 504}
  }

  /** A 422 whose errors say that the pull request already exists. */
  predicate AlreadyExists(reply: Fetch<string>) {
    reply.Failed? && reply.error.GithubException? && reply.error.status == 422 &&
    reply.error.errors.Some? &&
    exists i :: 0 <= i < |reply.error.errors.value| &&
      Contains(reply.error.errors.value[i], "A pull request already exists")
  }

  /** The URL returned for a create call that is not retried: the new pull
      request's, the first open pull request of the same head and base when
      it already exists, and None for every other failure. */
  function FinalUrl(reply: Fetch<string>, existing: seq<string>): Option<string> {
    if reply.Fetched? then Some(reply.value)
    else if AlreadyExists(reply) && |existing| > 0 then Some(existing[0])
    else None
  }

  datatype PullOutcome = PullOutcome(url: Option<string>, calls: nat)

  /** The retry budget a call with `retryAttempts` left may spend. */
  function Budget(retryAttempts: int): nat {
    if retryAttempts > 0 then retryAttempts else 0
  }

  /** `create_pull_request`: `create(k)` answers the `k`-th `create_pull`
      call and `existing` lists the open pull requests of the same head and
      base. The result is the URL and the number of create calls made. */
  function CreatePullRequest(create: nat -> Fetch<string>, k: nat, retryAttempts: int, existing: seq<string>)
    : (r: PullOutcome)
    ensures 1 <= r.calls <= Budget(retryAttempts) + 1
    decreases Budget(retryAttempts)
  {
    var reply := create(k);
    if retryAttempts > 0 && Transient(reply) then
      var rest := CreatePullRequest(create, k + 1, retryAttempts - 1, existing);
      PullOutcome(rest.url, rest.calls + 1)
    else if reply.Fetched? then PullOutcome(Some(reply.value), 1)
    else if AlreadyExists(reply) then PullOutcome(if |existing| > 0 then Some(existing[0]) else None, 1)
    else PullOutcome(None, 1)
  }

  /** Every create call but the last was answered with a server error, the
      last one is not retried (its answer is no server error or the budget
      is spent), and the URL is the one that last answer gives. */
  lemma {:induction false} CreatePullRequestRetries(create: nat -> Fetch<string>, k: nat, retryAttempts: int,
                                                    existing: seq<string>, r: PullOutcome)
    requires r == CreatePullRequest(create, k, retryAttempts, existing)
    ensures forall c :: k <= c < k + r.calls - 1 ==> Transient(create(c))
    ensures r.calls == Budget(retryAttempts) + 1 || !Transient(create(k + r.calls - 1))
    ensures r.url == FinalUrl(create(k + r.calls - 1), existing)
    decreases Budget(retryAttempts)
  {
    if retryAttempts > 0 && Transient(create(k)) {
      var rest := CreatePullRequest(create, k + 1, retryAttempts - 1, existing);
      CreatePullRequestRetries(create, k + 1, retryAttempts - 1, existing, rest);
      assert k + r.calls - 1 == (k + 1) + rest.calls - 1;
    }
  }

  // ---------------------------------------------------------------- CI status

  datatype CheckRun = CheckRun(conclusion: Option<string>, htmlUrl: Option<string>)

  datatype Suite = Suite(status: string, conclusion: Option<string>, runs: seq<CheckRun>)

  predicate Failure(s: Suite) { s.conclusion == Some("failure") }

  predicate ActionRequired(s: Suite) { s.conclusion == Some("action_required") }

  predicate Active(s: Suite) { s.status != "completed" }

  /** A truthy conclusion other than success, neutral and skipped
      (cancelled, timed_out, ...). */
  predicate Bad(s: Suite) {
    TruthyStr(s.conclusion) && s.conclusion.value !in ["success", "neutral", "skipped"]
  }

  /** The scan's variables: `overall_status`, `overall_conclusion`, the three
      flags and `relevant_check_runs_url`. */
  datatype Scan = Scan(status: string, conclusion: string, pending: bool, failure: bool,
                       actionRequired: bool, runUrl: Option<string>)

  const Start := Scan("success", "success", false, false, false, None)

  /** The URL of the first failed check run, if any. */
  function FailedRunUrl(runs: seq<CheckRun>): (u: Option<string>)
    ensures u.Some? ==> exists i :: 0 <= i < |runs| && runs[i].htmlUrl == u
  {
    if runs == [] then None
    else if runs[0].conclusion == Some("failure") then runs[0].htmlUrl
    else FailedRunUrl(runs[1..])
  }

  /** One turn of the suite loop before any failure was found. */
  function StepSuite(a: Scan, s: Suite): (b: Scan) {
    if Failure(s) then
      a.(status := "failure", conclusion := "failure", failure := true, runUrl := FailedRunUrl(s.runs))
    else
      var a1 := if ActionRequired(s) then a.(status := "action_required", conclusion := "action_required",
                                             actionRequired := true) else a;
      var a2 := if !Active(s) then a1
                else if !a1.failure && !a1.actionRequired then
                  a1.(pending := true, status := "pending", conclusion := "pending_suite_status_" + s.status)
                else a1.(pending := true);
      if Bad(s) && !a2.failure && !a2.actionRequired && !a2.pending then
        a2.(status := "failure", conclusion := s.conclusion.value)
      else a2
  }

  /** The scan after the suites, which stops at the first failure. */
  function Scanned(suites: seq<Suite>): Scan {
    if suites == [] then Start
    else
      var a := Scanned(suites[..|suites| - 1]);
      if a.failure then a else StepSuite(a, suites[|suites| - 1])
  }

  /** Status and conclusion once the loop is over. */
  function Verdict(suites: seq<Suite>): (string, string) {
    var a := Scanned(suites);
    if a.pending && !a.failure && !a.actionRequired then ("pending", "pending_active_checks")
    else (a.status, a.conclusion)
  }

  /** The checks URL reported: the failed run's when truthy, else the pull
      request's checks tab when there is a pull request URL. */
  function ChecksUrl(runUrl: Option<string>, prUrl: Option<string>): Option<string> {
    if TruthyStr(runUrl) then runUrl
    else if TruthyStr(prUrl) then Some(prUrl.value + "/checks")
    else prUrl
  }

  lemma ScannedSnoc(s: seq<Suite>, x: Suite)
    ensures Scanned(s + [x]) == if Scanned(s).failure then Scanned(s) else StepSuite(Scanned(s), x)
  {
    assert (s + [x])[..|s|] == s;
  }

  /** Once a failure is found, later suites change nothing. */
  lemma {:induction false} ScannedStops(s: seq<Suite>, i: nat)
    requires i <= |s| && Scanned(s[..i]).failure
    ensures Scanned(s) == Scanned(s[..i])
    decreases |s| - i
  {
    if i < |s| {
      assert s[..i + 1] == s[..i] + [s[i]];
      ScannedSnoc(s[..i], s[i]);
      ScannedStops(s, i + 1);
    } else {
      assert s[..i] == s;
    }
  }

  /** The first failed suite decides the scan: status and conclusion
      "failure" and the URL of its first failed run. */
  lemma {:induction false} FirstFailureDecides(s: seq<Suite>, i: nat)
    requires i < |s| && Failure(s[i]) && forall j :: 0 <= j < i ==> !Failure(s[j])
    ensures Scanned(s) == Scanned(s[..i]).(status := "failure", conclusion := "failure", failure := true,
                                           runUrl := FailedRunUrl(s[i].runs))
    ensures Verdict(s) == ("failure", "failure")
  {
    NoFailureScan(s[..i]);
    assert s[..i + 1] == s[..i] + [s[i]];
    ScannedSnoc(s[..i], s[i]);
    ScannedStops(s, i + 1);
  }

  /** Without a failed suite the flags record what was seen, and an
      action_required conclusion wins over everything after it. */
  lemma {:induction false} NoFailureScan(s: seq<Suite>)
    requires forall j :: 0 <= j < |s| ==> !Failure(s[j])
    ensures var a := Scanned(s);
      !a.failure && a.runUrl.None? &&
      (a.actionRequired <==> exists j :: 0 <= j < |s| && ActionRequired(s[j])) &&
      (a.pending <==> exists j :: 0 <= j < |s| && Active(s[j])) &&
      (a.actionRequired ==> a.status == "action_required" && a.conclusion == "action_required")
  {
    if s != [] {
      var p := s[..|s| - 1];
      var x := s[|s| - 1];
      assert s == p + [x];
      assert forall j :: 0 <= j < |p| ==> p[j] == s[j];
      NoFailureScan(p);
      ScannedSnoc(p, x);
      assert (exists j :: 0 <= j < |s| && ActionRequired(s[j])) <==>
             (exists j :: 0 <= j < |p| && ActionRequired(p[j])) || ActionRequired(x);
      assert (exists j :: 0 <= j < |s| && Active(s[j])) <==>
             (exists j :: 0 <= j < |p| && Active(p[j])) || Active(x);
    }
  }

  /** With every suite completed and none failed or action_required, the
      status is "failure" exactly when some conclusion is bad, with the last
      bad conclusion, and "success" otherwise. */
  lemma {:induction false} QuietScan(s: seq<Suite>)
    requires forall j :: 0 <= j < |s| ==> !Failure(s[j]) && !ActionRequired(s[j]) && !Active(s[j])
    ensures var a := Scanned(s);
      !a.failure && !a.actionRequired && !a.pending &&
      (a.status == "failure" <==> exists j :: 0 <= j < |s| && Bad(s[j])) &&
      (a.status != "failure" ==> a.status == "success" && a.conclusion == "success") &&
      (forall j :: 0 <= j < |s| && Bad(s[j]) && (forall l :: j < l < |s| ==> !Bad(s[l])) ==>
         a.conclusion == s[j].conclusion.value)
  {
    if s != [] {
      var p := s[..|s| - 1];
      var x := s[|s| - 1];
      assert s == p + [x];
      assert forall j :: 0 <= j < |p| ==> p[j] == s[j];
      QuietScan(p);
      ScannedSnoc(p, x);
      assert (exists j :: 0 <= j < |s| && Bad(s[j])) <==>
             (exists j :: 0 <= j < |p| && Bad(p[j])) || Bad(x);
    }
  }

  /** The priority of `get_pr_ci_status` over the suites: failure, then
      action_required, then active suites, then any bad conclusion, else
      success. */
  lemma VerdictPriority(s: seq<Suite>)
    ensures (exists i :: 0 <= i < |s| && Failure(s[i])) ==> Verdict(s) == ("failure", "failure")
    ensures (forall i :: 0 <= i < |s| ==> !Failure(s[i])) && (exists i :: 0 <= i < |s| && ActionRequired(s[i])) ==>
      Verdict(s) == ("action_required", "action_required")
    ensures (forall i :: 0 <= i < |s| ==> !Failure(s[i]) && !ActionRequired(s[i])) &&
            (exists i :: 0 <= i < |s| && Active(s[i])) ==>
      Verdict(s) == ("pending", "pending_active_checks")
    ensures (forall i :: 0 <= i < |s| ==> !Failure(s[i]) && !ActionRequired(s[i]) && !Active(s[i])) ==>
      (Verdict(s).0 == "failure" <==> exists i :: 0 <= i < |s| && Bad(s[i])) &&
      (Verdict(s).0 != "failure" ==> Verdict(s) == ("success", "success"))
  {
    if exists i :: 0 <= i < |s| && Failure(s[i]) {
      var i :| 0 <= i < |s| && Failure(s[i]);
      while exists j :: 0 <= j < i && Failure(s[j])
        invariant 0 <= i < |s| && Failure(s[i])
        decreases i
      {
        var j :| 0 <= j < i && Failure(s[j]);
        i := j;
      }
      FirstFailureDecides(s, i);
    } else {
      NoFailureScan(s);
      if forall i :: 0 <= i < |s| ==> !Failure(s[i]) && !ActionRequired(s[i]) && !Active(s[i]) {
        QuietScan(s);
      }
    }
  }

  /** The inner loop of the suite scan: the URL of the first failed run. */
  method FirstFailedRun(runs: seq<CheckRun>) returns (url: Option<string>)
    ensures url == FailedRunUrl(runs)
  {
    url := None;
    var i := 0;
    while i < |runs|
      invariant i <= |runs|
      invariant FailedRunUrl(runs) == FailedRunUrl(runs[i..])
    {
      if runs[i].conclusion == Some("failure") {
        url := runs[i].htmlUrl;
        return;
      }
      assert runs[i..][1..] == runs[i + 1..];
      i := i + 1;
    }
  }

  /** The suite loop of `get_pr_ci_status` with the verdict after it. */
  method AggregateSuites(suites: seq<Suite>, prUrl: Option<string>)
    returns (status: string, conclusion: string, url: Option<string>)
    ensures (status, conclusion) == Verdict(suites)
    ensures url == ChecksUrl(Scanned(suites).runUrl, prUrl)
  {
    status, conclusion := "success", "success";
    var pending, failure, actionRequired := false, false, false;
    var runUrl: Option<string> := None;
    var i := 0;
    while i < |suites|
      invariant i <= |suites|
      invariant Scan(status, conclusion, pending, failure, actionRequired, runUrl) == Scanned(suites[..i])
      invariant !failure
    {
      var suite := suites[i];
      assert suites[..i + 1] == suites[..i] + [suite];
      ScannedSnoc(suites[..i], suite);
      if Failure(suite) {
        status, conclusion, failure := "failure", "failure", true;
        runUrl := FirstFailedRun(suite.runs);
        ScannedStops(suites, i + 1);
        break;
      }
      if ActionRequired(suite) {
        status, conclusion, actionRequired := "action_required", "action_required", true;
      }
      if Active(suite) {
        pending := true;
        if !failure && !actionRequired {
          status, conclusion := "pending", "pending_suite_status_" + suite.status;
        }
      }
      if Bad(suite) && !failure && !actionRequired && !pending {
        status, conclusion := "failure", suite.conclusion.value;
      }
      i := i + 1;
    }
    if i == |suites| {
      assert suites[..i] == suites;
    }
    if pending && !failure && !actionRequired {
      status, conclusion := "pending", "pending_active_checks";
    }
    url := ChecksUrl(runUrl, prUrl);
  }

  /** The pull request as `get_pull` returns it; `mergeableState` is the
      value after `pr.update()`. */
  datatype Pull = Pull(headSha: Option<string>, htmlUrl: string, mergeableState: string)

  datatype CiStatus = CiStatus(status: string, conclusion: string, url: Option<string>)

  /** `"api_error_" + status` or `"unexpected_error"`. */
  function ErrorStatus(e: GithubError, prUrl: Option<string>): CiStatus {
    match e
    case GithubException(status, _, _) => CiStatus("unknown", "api_error_" + IntToString(status), prUrl)
    case OtherException(_) => CiStatus("unknown", "unexpected_error", prUrl)
  }

  /** `if pr_number`: None and 0 are falsy. */
  predicate GivenNumber(prNumber: Option<int>) { prNumber.Some? && prNumber.value != 0 }

  /** `get_pr_ci_status`: `pull` answers `get_pull(pr_number)` and `checks`
      answers the check-suite listing of the commit. */
  method GetPrCiStatus(prNumber: Option<int>, headSha: Option<string>, pull: Fetch<Pull>,
                       checks: Fetch<seq<Suite>>) returns (r: Result<CiStatus>)
    ensures r.Raised? <==> !GivenNumber(prNumber) && !TruthyStr(headSha)
    ensures r.Raised? ==> r.exc == Exc("ValueError", "Either pr_number or head_sha must be provided to get CI status.")
    ensures GivenNumber(prNumber) && pull.Failed? ==> r == Ok(ErrorStatus(pull.error, None))
    ensures var prUrl := if GivenNumber(prNumber) && pull.Fetched? then Some(pull.value.htmlUrl) else None;
      var sha := if GivenNumber(prNumber) && pull.Fetched? then pull.value.headSha else headSha;
      r.Ok? && (!GivenNumber(prNumber) || pull.Fetched?) ==>
        if !TruthyStr(sha) then r.value == CiStatus("unknown", "Could not determine SHA", prUrl)
        else if checks.Failed? then r.value == ErrorStatus(checks.error, prUrl)
        else if checks.value == [] then
          r.value.url == prUrl &&
          (GivenNumber(prNumber) && pull.value.mergeableState == "dirty" ==>
             (r.value.status, r.value.conclusion) == ("failure", "merge_conflict")) &&
          (GivenNumber(prNumber) && pull.value.mergeableState == "unknown" ==>
             (r.value.status, r.value.conclusion) == ("pending", "computation_pending")) &&
          (!GivenNumber(prNumber) || pull.value.mergeableState !in ["dirty", "unknown"] ==>
             (r.value.status, r.value.conclusion) == ("neutral", "no_check_suites"))
        else
          (r.value.status, r.value.conclusion) == Verdict(checks.value) &&
          r.value.url == ChecksUrl(Scanned(checks.value).runUrl, prUrl)
  {
    if !GivenNumber(prNumber) && !TruthyStr(headSha) {
      return Raised(Exc("ValueError", "Either pr_number or head_sha must be provided to get CI status."));
    }
    var sha := headSha;
    var prUrl: Option<string> := None;
    if GivenNumber(prNumber) {
      if pull.Failed? {
        return Ok(ErrorStatus(pull.error, prUrl));
      }
      sha := pull.value.headSha;
      prUrl := Some(pull.value.htmlUrl);
    }
    if !TruthyStr(sha) {
      return Ok(CiStatus("unknown", "Could not determine SHA", prUrl));
    }
    if checks.Failed? {
      return Ok(ErrorStatus(checks.error, prUrl));
    }
    var suites := checks.value;
    if |suites| == 0 {
      if GivenNumber(prNumber) {
        if pull.value.mergeableState == "dirty" {
          return Ok(CiStatus("failure", "merge_conflict", prUrl));
        }
        if pull.value.mergeableState == "unknown" {
          return Ok(CiStatus("pending", "computation_pending", prUrl));
        }
      }
      return Ok(CiStatus("neutral", "no_check_suites", prUrl));
    }
    var status, conclusion, url := AggregateSuites(suites, prUrl);
    return Ok(CiStatus(status, conclusion, url));
  }
}
