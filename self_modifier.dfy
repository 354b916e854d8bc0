/** The git-facing side of self-modification: how a proposal branch is
    named, how checkout commands are built and retried, the outcome logic
    of a merge, and the verdict of a sandbox test run. Git itself is an
    oracle: the `k`-th command an instance runs answers `git(k, command)`. */
module SelfModifier {
  import opened Common

  /** What running git did: it exited with its output and code, the git
      executable was not found, or running it raised. */
  datatype GitRun =
    | Exited(stdout: string, stderr: string, code: int)
    | GitNotFound
    | GitFailed(msg: string)

  /** The `(stdout, stderr, returncode)` triple `_run_git_command` returns:
      either git ran and its output is returned stripped of surrounding
      whitespace, or git did not run and the triple is fixed text. */
  datatype GitReply =
    | Ran(rawOut: string, rawErr: string, code: int)
    | NotRun(out: string, err: string, code: int)
  {
    function Stdout(): string {
      if Ran? then Strip(rawOut) else out
    }

    function Stderr(): string {
      if Ran? then Strip(rawErr) else err
    }

    /** The output text as git printed it. */
    function RawOut(): string {
      if Ran? then rawOut else out
    }

    function RawErr(): string {
      if Ran? then rawErr else err
    }
  }

  /** The git commands SelfModifier runs. */
  datatype Command =
    | RevParseHead
    | Checkout(branch: string)
    | CheckoutNew(branch: string, base: string)
    | Add(path: string)
    | Commit(message: string)
    | PushUpstream(branch: string)
    | Fetch(branch: string)
    | Pull(branch: string)
    | Merge(branch: string)
    | MergeAbort
    | Push(branch: string)
    | DeleteLocal(branch: string)
    | DeleteRemote(branch: string)
  {
    /** The list passed to `_run_git_command`; `git` is put in front of it. */
    function Args(): seq<string> {
      match this
      case RevParseHead => ["rev-parse", "--abbrev-ref", "HEAD"]
      case Checkout(b) => ["checkout", b]
      case CheckoutNew(b, base) => if base != "" then ["checkout", "-b", b, base] else ["checkout", "-b", b]
      case Add(path) => ["add", path]
      case Commit(m) => ["commit", "-m", m]
      case PushUpstream(b) => ["push", "-u", "origin", b, "--force-with-lease"]
      case Fetch(b) => ["fetch", "origin", b]
      case Pull(b) => ["pull", "origin", b]
      case Merge(b) => ["merge", "--no-ff", b]
      case MergeAbort => ["merge", "--abort"]
      case Push(b) => ["push", "origin", b]
      case DeleteLocal(b) => ["branch", "-d", b]
      case DeleteRemote(b) => ["push", "origin", "--delete", b]
    }
  }

  /** The members of Python's `signal.Signals` on Linux, indexed by number;
      where two names share a number the enum keeps the alphabetically first
      (SIGABRT, SIGCHLD, SIGIO). */
  const LinuxSignals: seq<string> :=
    ["", "SIGHUP", "SIGINT", "SIGQUIT", "SIGILL", "SIGTRAP", "SIGABRT", "SIGBUS", "SIGFPE",
     "SIGKILL", "SIGUSR1", "SIGSEGV", "SIGUSR2", "SIGPIPE", "SIGALRM", "SIGTERM", "SIGSTKFLT",
     "SIGCHLD", "SIGCONT", "SIGSTOP", "SIGTSTP", "SIGTTIN", "SIGTTOU", "SIGURG", "SIGXCPU",
     "SIGXFSZ", "SIGVTALRM", "SIGPROF", "SIGWINCH", "SIGIO", "SIGPWR", "SIGSYS"]

  /** The name `signal.Signals(s)` gives, or None when it raises ValueError. */
  function SignalName(s: int): (name: Option<string>)
    ensures name.Some? <==> 1 <= s <= 31 || s == 34 || s == 64
    ensures s == 9 ==> name == Some("SIGKILL")
    ensures s == 15 ==> name == Some("SIGTERM")
  {
    if 1 <= s < |LinuxSignals| then Some(LinuxSignals[s])
    else if s == 34 then Some("SIGRTMIN")
    else if s == 64 then Some("SIGRTMAX")
    else None
  }

  /** The command as `CalledProcessError` quotes it: its argument list. */
  function Quoted(command: Command): string {
    "Command '" + ListRepr(command.Args()) + "'"
  }

  /** `str(CalledProcessError(code, command))`: a negative code is the signal
      that killed the process, named when Python knows it. */
  function CalledProcessMessage(command: Command, code: int): string
  {
    var head := Quoted(command);
    if code >= 0 then head + " returned non-zero exit status " + IntToString(code) + "."
    else match SignalName(-code)
      case Some(name) => head + " died with <Signals." + name + ": " + IntToString(-code) + ">."
      case None => head + " died with unknown signal " + IntToString(-code) + "."
  }

  /** A git killed by SIGKILL is reported with the signal's name. */
  lemma KilledMessage(command: Command)
    ensures CalledProcessMessage(command, -9) == Quoted(command) + " died with <Signals.SIGKILL: 9>."
  {
    var h := Quoted(command);
    assert IntToString(9) == "9";
    assert h + " died with <Signals." + "SIGKILL" + ": " + "9" + ">." == h + " died with <Signals.SIGKILL: 9>.";
  }

  /** A status the signal table does not know is reported by number. */
  lemma UnknownSignalMessage(command: Command)
    ensures CalledProcessMessage(command, -40) == Quoted(command) + " died with unknown signal 40."
  {
    var h := Quoted(command);
    assert IntToString(40) == "40";
    assert h + " died with unknown signal " + "40" + "." == h + " died with unknown signal 40.";
  }

  /** The triple `_run_git_command` returns for a run when it does not raise. */
  function Answer(run: GitRun): (r: GitReply)
    ensures run.Exited? <==> r.Ran?
    ensures r.code == (if run.Exited? then run.code else if run.GitNotFound? then -1 else -2)
  {
    match run
    case Exited(out, err, code) => Ran(out, err, code)
    case GitNotFound => NotRun("", "Git command not found", -1)
    case GitFailed(msg) => NotRun("", msg, -2)
  }

  /** What `_run_git_command` does with a run when asked to raise on error:
      every non-zero exit raises, so a caller that receives a reply always
      receives exit code 0. */
  function Raising(run: GitRun, command: Command): (r: Result<GitReply>)
    ensures r.Ok? <==> run.Exited? && run.code == 0
    ensures r.Ok? ==> r.value == Answer(run)
    ensures run.Exited? && run.code != 0 ==> r.exc.kind == "CalledProcessError"
    ensures run.GitNotFound? ==> r.Raised? && r.exc.kind == "FileNotFoundError"
    ensures run.GitFailed? ==> r.Raised? && r.exc.kind == "Exception"
  {
    match run
    case Exited(out, err, code) =>
      if code != 0 then Raised(Exc("CalledProcessError", CalledProcessMessage(command, code)))
      else Ok(Ran(out, err, code))
    case GitNotFound => Raised(Exc("FileNotFoundError", "[Errno 2] No such file or directory: 'git'"))
    case GitFailed(msg) => Raised(Exc("Exception", msg))
  }

  /** The command `checkout_branch` issues first: `checkout -b`, with the base
      branch when one is given, when asked to create the branch. */
  function CheckoutCommand(branch: string, create: bool, base: string): (cmd: Command)
    ensures !create ==> cmd.Args() == ["checkout", branch]
    ensures create ==> cmd.Args() == ["checkout", "-b", branch] + (if base != "" then [base] else [])
  {
    if create then CheckoutNew(branch, base) else Checkout(branch)
  }

  /** A failed `checkout -b` that reports the branch is already there. The
      phrases are looked for in the text as git printed it, which decides the
      same as looking in the stripped text (AlreadyThereStripped). */
  predicate AlreadyThere(reply: GitReply) {
    Contains(reply.RawErr(), "already exists") || Contains(reply.RawOut(), "already on")
  }

  lemma AlreadyThereStripped(reply: GitReply)
    ensures AlreadyThere(reply) <==>
      Contains(reply.Stderr(), "already exists") || Contains(reply.Stdout(), "already on")
  {
    if reply.Ran? {
      ContainsStrip(reply.rawErr, "already exists");
      ContainsStrip(reply.rawOut, "already on");
    }
  }

  // ---------------------------------------------------------------- branch names

  /** One character of `lower().replace(' ', '-').replace('/', '-').replace('\\', '-')`:
      each replacement swaps a single character, so the chain is a map over characters. */
  function DashChar(c: char): char {
    if c == ' ' || c == '/' || c == '\\' then '-' else c
  }

  predicate SlugChar(c: char) {
    IsLowerAscii(c) || IsDigit(c) || c == '-'
  }

  /** What one character of the message contributes to the slug: its
      lower-cased, dashed form when that is alphanumeric or '-'. */
  function SlugPart(c: char): string {
    var d := DashChar(LowerChar(c));
    if IsAlnum(d) || d == '-' then [d] else []
  }

  /** The lower-cased, dashed message with everything but alphanumerics and
      '-' dropped. */
  function Sanitise(s: string): string {
    if s == [] then [] else SlugPart(s[0]) + Sanitise(s[1..])
  }

  /** Sanitising never lengthens the text and leaves only slug characters. */
  lemma {:induction false} SanitiseSlugChars(s: string)
    ensures |Sanitise(s)| <= |s|
    ensures forall i :: 0 <= i < |Sanitise(s)| ==> SlugChar(Sanitise(s)[i])
  {
    if s != [] {
      SanitiseSlugChars(s[1..]);
      var p := SlugPart(s[0]);
      assert Sanitise(s) == p + Sanitise(s[1..]);
      forall i | 0 <= i < |Sanitise(s)| ensures SlugChar(Sanitise(s)[i]) {
        if i >= |p| {
          assert Sanitise(s)[i] == Sanitise(s[1..])[i - |p|];
        }
      }
    }
  }

  /** The commit-message part of a generated branch name. */
  function Slug(message: string): (r: string)
    ensures |r| <= 30
    ensures forall i :: 0 <= i < |r| ==> SlugChar(r[i])
    ensures r <= Sanitise(message)
  {
    SanitiseSlugChars(message);
    var s := Sanitise(message);
    if |s| <= 30 then s else s[..30]
  }

  /** The branch `propose_code_changes` works on: an explicit name verbatim,
      otherwise `{prefix or 'proposal'}/{proposal_id or random hex}_{slug}`. */
  function TargetBranch(branchName: Option<string>, prefix: Option<string>, proposalId: Option<string>,
                        randomHex: string, message: string): (b: string)
    ensures TruthyStr(branchName) ==> b == branchName.value
    ensures !TruthyStr(branchName) ==>
      b == OrElse(prefix, "proposal") + "/" + OrElse(proposalId, randomHex) + "_" + Slug(message)
  {
    if TruthyStr(branchName) then branchName.value
    else OrElse(prefix, "proposal") + "/" + OrElse(proposalId, randomHex) + "_" + Slug(message)
  }

  lemma SlugPartFixed(c: char)
    requires SlugChar(c)
    ensures SlugPart(c) == [c]
  {
    assert LowerChar(c) == c;
  }

  lemma {:induction false} SanitiseFixed(s: string)
    requires forall i :: 0 <= i < |s| ==> SlugChar(s[i])
    ensures Sanitise(s) == s
  {
    if s != [] {
      SlugPartFixed(s[0]);
      SanitiseFixed(s[1..]);
      assert s == [s[0]] + s[1..];
    }
  }

  /** Sanitising is a projection: a slug is its own slug. */
  lemma SlugIdempotent(message: string)
    ensures Slug(Slug(message)) == Slug(message)
  {
    SanitiseFixed(Slug(message));
  }

  /** A message made only of letters, digits, spaces, slashes, backslashes
      and dashes loses no character: the slug part is the message lower-cased
      with every separator turned into '-' (as for "Test commit for PR",
      whose part is "test-commit-for-pr"). */
  lemma {:induction false} SanitiseWords(s: string)
    requires forall i :: 0 <= i < |s| ==> IsAlnum(s[i]) || s[i] in " /\\-"
    ensures |Sanitise(s)| == |s|
    ensures forall i :: 0 <= i < |s| ==> Sanitise(s)[i] == DashChar(LowerChar(s[i]))
  {
    if s != [] {
      SanitiseWords(s[1..]);
      assert SlugPart(s[0]) == [DashChar(LowerChar(s[0]))];
      forall i | 1 <= i < |s| ensures Sanitise(s)[i] == DashChar(LowerChar(s[i])) {
        assert Sanitise(s)[i] == Sanitise(s[1..])[i - 1];
      }
    }
  }

  // ---------------------------------------------------------------- sandbox verdict

  /** The pass criterion `sandbox_test` applies to the test output. */
  predicate SandboxPassed(output: string) {
    Contains(output, "Tests passed") && !Contains(output, "Tests failed") && !Contains(output, "Error")
  }

  /** How the sandbox's `test_code` ran the test script. */
  datatype TestRun = ExitedZero(stdout: string) | ExitedNonZero(stderr: string) | TimedOut | RunError(msg: string)

  /** The text `Sandbox.test_code` returns for a run. */
  function TestOutput(run: TestRun): string {
    match run
    case ExitedZero(out) => "Tests passed:\n" + out
    case ExitedNonZero(err) => "Tests failed:\n" + err
    case TimedOut => "Error: Test execution timed out."
    case RunError(msg) => "Error: " + msg
  }

  /** Only a script that exited with code 0 can pass, and then only when its
      own output mentions neither a failure nor an error. */
  lemma PassingOutput(run: TestRun)
    ensures SandboxPassed(TestOutput(run)) ==>
      run.ExitedZero? && !Contains(run.stdout, "Tests failed") && !Contains(run.stdout, "Error")
  {
    match run
    case ExitedZero(out) =>
      if Contains(out, "Tests failed") || Contains(out, "Error") {
        ContainsConcat("Tests passed:\n", out, if Contains(out, "Tests failed") then "Tests failed" else "Error");
      }
    case ExitedNonZero(err) =>
      ContainsAt(TestOutput(run), "Tests failed", 0);
    case TimedOut =>
      ContainsAt(TestOutput(run), "Error", 0);
    case RunError(msg) =>
      ContainsAt(TestOutput(run), "Error", 0);
  }

  // ---------------------------------------------------------------- the repository

  /** Contents of the working tree after writing each (path, content) pair in order. */
  function WriteAll(tree: map<string, string>, files: seq<(string, string)>): (r: map<string, string>)
  {
    if files == [] then tree
    else WriteAll(tree, files[..|files| - 1])[files[|files| - 1].0 := files[|files| - 1].1]
  }

  /** Writing one more file of a list updates the tree at that file's path. */
  lemma WriteAllNext(tree: map<string, string>, files: seq<(string, string)>, k: nat)
    requires k < |files|
    ensures WriteAll(tree, files[..k + 1]) == WriteAll(tree, files[..k])[files[k].0 := files[k].1]
  {
    assert files[..k + 1][..k] == files[..k];
  }

  /** Writing the files adds exactly their paths to the tree. */
  lemma {:induction false} WriteAllKeys(tree: map<string, string>, files: seq<(string, string)>)
    ensures WriteAll(tree, files).Keys == tree.Keys + set i | 0 <= i < |files| :: files[i].0
  {
    if files != [] {
      var init := files[..|files| - 1];
      WriteAllKeys(tree, init);
      assert (set i | 0 <= i < |files| :: files[i].0)
          == (set i | 0 <= i < |init| :: init[i].0) + {files[|files| - 1].0} by {
        forall i | 0 <= i < |init| ensures init[i] == files[i] { }
      }
    }
  }

  /** A path holds the content of its last write. */
  lemma {:induction false} WriteAllLast(tree: map<string, string>, files: seq<(string, string)>, i: nat)
    requires i < |files|
    requires forall j :: i < j < |files| ==> files[j].0 != files[i].0
    ensures files[i].0 in WriteAll(tree, files) && WriteAll(tree, files)[files[i].0] == files[i].1
  {
    if i < |files| - 1 {
      var init := files[..|files| - 1];
      assert init[i] == files[i];
      WriteAllLast(tree, init, i);
    }
  }

  /** A path none of the files names keeps its old content, or stays absent. */
  lemma {:induction false} WriteAllOther(tree: map<string, string>, files: seq<(string, string)>, path: string)
    requires forall j :: 0 <= j < |files| ==> files[j].0 != path
    ensures path in WriteAll(tree, files) <==> path in tree
    ensures path in tree ==> WriteAll(tree, files)[path] == tree[path]
  {
    if files != [] {
      var init := files[..|files| - 1];
      assert forall j :: 0 <= j < |init| ==> init[j] == files[j];
      WriteAllOther(tree, init, path);
    }
  }

  /** The `git add` commands that stage `files`, in order. */
  function Adds(files: seq<(string, string)>): (t: seq<Command>)
    ensures |t| == |files|
    ensures forall i :: 0 <= i < |files| ==> t[i] == Add(files[i].0)
  {
    if files == [] then [] else Adds(files[..|files| - 1]) + [Add(files[|files| - 1].0)]
  }

  function Deletions(branch: string, delete: bool): seq<Command> {
    if delete then [DeleteLocal(branch), DeleteRemote(branch)] else []
  }

  /** Commands issued in two batches are the first batch followed by the second. */
  lemma IssuedInTwo(before: seq<Command>, first: seq<Command>, second: seq<Command>)
    ensures before + first + second == before + (first + second)
    ensures before + first + [] == before + first
  {
  }

  /** Running more commands keeps the ones run before as a prefix. */
  lemma IssuedGrows(before: seq<Command>, a: seq<Command>, b: seq<Command>, c: seq<Command>)
    ensures before <= before + a && before <= before + a + b + c
  {
    assert (before + a + b + c)[..|before|] == before;
  }

  class Repository {
    /** Whether the repository path has a `.git` directory. */
    const isRepo: bool
    /** Whether a sandbox manager was supplied. */
    const hasSandbox: bool
    /** Whether `scripts/test_runner.py` exists in the repository. */
    const hasTestScript: bool
    /** The answer of git to the `k`-th command this instance runs. */
    const git: (nat, Command) -> GitRun
    /** Every git command run so far, in order. */
    var issued: seq<Command>
    /** The files written into the working tree. */
    var worktree: map<string, string>

    constructor (isRepo: bool, hasSandbox: bool, hasTestScript: bool,
                 git: (nat, Command) -> GitRun, worktree: map<string, string>)
      ensures this.isRepo == isRepo && this.hasSandbox == hasSandbox && this.hasTestScript == hasTestScript
      ensures this.git == git && this.worktree == worktree && issued == []
    {
      this.isRepo := isRepo;
      this.hasSandbox := hasSandbox;
      this.hasTestScript := hasTestScript;
      this.git := git;
      this.worktree := worktree;
      issued := [];
    }

    /** The non-raising reply to `command` run as the `k`-th command. */
    function Reply(k: nat, command: Command): GitReply {
      Answer(git(k, command))
    }

    /** Git ran `command` as the `k`-th command and it exited with code 0. */
    predicate Succeeded(k: nat, command: Command) {
      git(k, command).Exited? && git(k, command).code == 0
    }

    /** The commands `merge_branch` runs, from the `n`-th on, once it knows
        that `current` is the branch to return to: check out the target, pull
        it, merge, then abort or push and delete, and always check out
        `current` again. */
    function MergeTrace(n: nat, branch: string, target: string, delete: bool, current: string): (t: seq<Command>)
      ensures 2 <= |t| && t[0] == Checkout(target) && t[|t| - 1] == Checkout(current)
      ensures Push(target) in t <==> Reply(n, Checkout(target)).code == 0 && Reply(n + 2, Merge(branch)).code == 0
      ensures MergeAbort in t <==> Reply(n, Checkout(target)).code == 0 && Reply(n + 2, Merge(branch)).code != 0
    {
      MergeBody(n, branch, target, delete) + [Checkout(current)]
    }

    /** The commands of the `try` body of `merge_branch`, before the
        checkout back in its `finally`. */
    function MergeBody(n: nat, branch: string, target: string, delete: bool): (t: seq<Command>)
      ensures 1 <= |t| && t[0] == Checkout(target)
      ensures Push(target) in t <==> Reply(n, Checkout(target)).code == 0 && Reply(n + 2, Merge(branch)).code == 0
      ensures MergeAbort in t <==> Reply(n, Checkout(target)).code == 0 && Reply(n + 2, Merge(branch)).code != 0
    {
      if Reply(n, Checkout(target)).code != 0 then [Checkout(target)]
      else [Checkout(target)] + TargetBody(n + 1, branch, target, delete)
    }

    /** The commands issued once the target is checked out, from the
        `n`-th on: pull, merge, then abort, or push and, after a good push,
        the deletions. */
    function TargetBody(n: nat, branch: string, target: string, delete: bool): seq<Command> {
      if Reply(n + 1, Merge(branch)).code != 0 then [Pull(target), Merge(branch), MergeAbort]
      else [Pull(target), Merge(branch), Push(target)]
           + (if Reply(n + 2, Push(target)).code == 0 then Deletions(branch, delete) else [])
    }

    /** A merge whose commands start at the `n`-th succeeds exactly when the
        target checkout, the merge and the target push exit with code 0. */
    predicate MergeSucceeds(n: nat, branch: string, target: string) {
      Reply(n, Checkout(target)).code == 0 && Reply(n + 2, Merge(branch)).code == 0 &&
      Reply(n + 3, Push(target)).code == 0
    }

    /** TargetBody and TargetMessage by the outcome of the merge. */
    lemma TargetCases(n: nat, branch: string, target: string, delete: bool)
      ensures Reply(n + 1, Merge(branch)).code != 0 ==>
                TargetBody(n, branch, target, delete) == [Pull(target), Merge(branch), MergeAbort] &&
                TargetMessage(n, branch, target) == MergeConflict(branch, Reply(n + 1, Merge(branch)).Stderr())
      ensures Reply(n + 1, Merge(branch)).code == 0 ==>
                var pushed := Reply(n + 2, Push(target)).code == 0;
                TargetBody(n, branch, target, delete) ==
                  [Pull(target), Merge(branch)] + ([Push(target)] + (if pushed then Deletions(branch, delete) else [])) &&
                TargetMessage(n, branch, target) ==
                  (if pushed then MergedMessage(branch, target) else PushFailed(target, Reply(n + 2, Push(target)).Stderr()))
    {
    }

    /** The message `merge_branch` returns once the current branch is
        known, for a merge whose commands start at the `n`-th: the first
        step that failed (target checkout, merge, target push) is named,
        and otherwise the merge is reported done. */
    function MergeMessage(n: nat, branch: string, target: string): string {
      if Reply(n, Checkout(target)).code != 0 then CheckoutFailed(target)
      else TargetMessage(n + 1, branch, target)
    }

    /** The message once the target is checked out, with the pull as the
        `n`-th command. */
    function TargetMessage(n: nat, branch: string, target: string): string {
      if Reply(n + 1, Merge(branch)).code != 0 then MergeConflict(branch, Reply(n + 1, Merge(branch)).Stderr())
      else if Reply(n + 2, Push(target)).code != 0 then PushFailed(target, Reply(n + 2, Push(target)).Stderr())
      else MergedMessage(branch, target)
    }

    function CheckoutFailed(target: string): (r: string)
      ensures |r| > 0 && r[0] == 'F'
    {
      "Failed to checkout target branch '" + target + "'."
    }

    /** The message of a merge that failed, with git's error output. */
    function MergeConflict(branch: string, stderr: string): (r: string)
      ensures |r| > 0 && r[0] == 'M'
    {
      "Merge conflict or other error merging '" + branch + "'. Details: " + stderr
    }

    /** The message of a failed push of the merged target. */
    function PushFailed(target: string, stderr: string): (r: string)
      ensures |r| > 0 && r[0] == 'L'
    {
      var lead := "Local merge successful, but failed to push '";
      assert lead[0] == 'L';
      lead + (target + "': " + stderr)
    }

    function MergedMessage(branch: string, target: string): (r: string)
      ensures |r| > 0 && r[0] == 'S'
    {
      "Successfully merged '" + branch + "' into '" + target + "'."
    }

    /** A merge reports success, whose message starts with 'S', exactly
        when it succeeded; every failure message starts otherwise. */
    lemma MergeMessageSuccess(n: nat, branch: string, target: string)
      ensures MergeMessage(n, branch, target)[0] == 'S' <==> MergeSucceeds(n, branch, target)
    {
      if Reply(n, Checkout(target)).code == 0 {
        assert MergeMessage(n, branch, target) == TargetMessage(n + 1, branch, target);
      }
    }

    /** `t`, issued from the `n`-th command on, makes `branch` current: a
        `checkout -b` from `current`, possibly followed by up to two plain
        checkouts of `branch`, the last of which exited with code 0. */
    predicate Switched(n: nat, t: seq<Command>, branch: string, current: string) {
      0 < |t| <= 3 && t[0] == CheckoutNew(branch, current) &&
      (|t| > 1 ==> t[1] == Checkout(branch)) && (|t| > 2 ==> t[2] == Checkout(branch)) &&
      Reply(n + |t| - 1, t[|t| - 1]).code == 0
    }

    /** `t`, issued from the `n`-th command on, stages every file in order,
        each `git add` exiting with code 0. */
    predicate Staged(n: nat, t: seq<Command>, files: seq<(string, string)>) {
      t == Adds(files) && forall i :: 0 <= i < |files| ==> Succeeded(n + i, Add(files[i].0))
    }

    /** Once every file is staged, the error is the commit's or the push's. */
    lemma PublishPath(n: nat, m: nat, files: seq<(string, string)>, message: string, branch: string,
                      error: Option<Exc>)
      requires m == n + |files| && error == PublishError(m, message, branch)
      requires StageError(n, files, 0).None?
      ensures error == StageAndPublishError(n, files, message, branch)
    {
    }

    /** Staging every file and then publishing is a whole publication. */
    lemma PublishedJoin(n: nat, m: nat, staging: seq<Command>, publishing: seq<Command>,
                        files: seq<(string, string)>, message: string, branch: string, current: string)
      requires Staged(n, staging, files) && m == n + |files|
      requires publishing == [Commit(message), PushUpstream(branch), Checkout(current)]
      requires Succeeded(m, Commit(message)) && Succeeded(m + 1, PushUpstream(branch))
      ensures Published(n, staging + publishing, files, message, branch, current)
    {
      assert (staging + publishing)[..|files|] == staging;
      assert (staging + publishing)[|files|..] == publishing;
    }

    /** A loop that went through the whole list staged all of it, and the
        commit comes right after its adds. */
    lemma StagedAll(n: nat, m: nat, staging: seq<Command>, files: seq<(string, string)>, staged: nat)
      requires staged == |files| && Staged(n, staging, files[..staged]) && m == n + |staging|
      ensures m == n + |files| && Staged(n, staging, files)
    {
      assert files[..staged] == files;
    }

    lemma StagedNext(n: nat, t: seq<Command>, files: seq<(string, string)>, k: nat)
      requires k < |files| && Staged(n, t, files[..k]) && Succeeded(n + k, Add(files[k].0))
      ensures Staged(n, t + [Add(files[k].0)], files[..k + 1])
    {
      assert files[..k + 1] == files[..k] + [files[k]];
      assert files[..k + 1][..k] == files[..k];
    }

    /** The loop stops at the first add that fails, so that add's error is
        the one the file list raises. */
    lemma StageStops(n: nat, t: seq<Command>, files: seq<(string, string)>, k: nat)
      requires k < |files| && Staged(n, t, files[..k]) && !Succeeded(n + k, Add(files[k].0))
      ensures StageError(n, files, 0) == Some(AddError(n + k, files[k].0))
    {
      forall i | 0 <= i < k
        ensures Succeeded(n + i, Add(files[i].0))
      {
        assert files[..k][i] == files[i];
      }
      StageErrorFirst(n, files, 0, k);
    }

    /** `t`, issued from the `n`-th command on, stages every file, commits
        and pushes `branch`, all successfully, and checks out `current`. */
    predicate Published(n: nat, t: seq<Command>, files: seq<(string, string)>, message: string,
                        branch: string, current: string)
    {
      |files| <= |t| && Staged(n, t[..|files|], files) &&
      t[|files|..] == [Commit(message), PushUpstream(branch), Checkout(current)] &&
      Succeeded(n + |files|, Commit(message)) &&
      Succeeded(n + |files| + 1, PushUpstream(branch))
    }

    /** What a successful `propose_code_changes` runs on `branch` after
        reading `current`, from the `n`-th command on: `switching` makes
        `branch` current and `publishing` then stages, commits, pushes and
        switches back. */
    predicate Proposed(n: nat, switching: seq<Command>, publishing: seq<Command>, files: seq<(string, string)>,
                       message: string, branch: string, current: string)
    {
      Switched(n, switching, branch, current) &&
      Published(n + |switching|, publishing, files, message, branch, current)
    }

    /** The checkouts `SwitchTo` issues from the `n`-th command on: `checkout
        -b`, a plain checkout when that fails, and a second plain checkout
        when the first one followed an "already exists" and failed too. */
    function SwitchTrace(n: nat, branch: string, current: string): (t: seq<Command>)
      ensures 0 < |t| <= 3 && t[0] == CheckoutNew(branch, current)
      ensures (|t| > 1 ==> t[1] == Checkout(branch)) && (|t| > 2 ==> t[2] == Checkout(branch))
    {
      var first := Reply(n, CheckoutNew(branch, current));
      if first.code == 0 then [CheckoutNew(branch, current)]
      else if AlreadyThere(first) && Reply(n + 1, Checkout(branch)).code == 0 then
        [CheckoutNew(branch, current), Checkout(branch)]
      else if AlreadyThere(first) then [CheckoutNew(branch, current), Checkout(branch), Checkout(branch)]
      else [CheckoutNew(branch, current), Checkout(branch)]
    }

    /** The git answers let every add, then the commit and the push succeed. */
    predicate WouldPublish(n: nat, files: seq<(string, string)>, message: string, branch: string) {
      (forall i :: 0 <= i < |files| ==> Succeeded(n + i, Add(files[i].0))) &&
      Succeeded(n + |files|, Commit(message)) && Succeeded(n + |files| + 1, PushUpstream(branch))
    }

    /** The exception the commit and push, issued from the `n`-th command on,
        raise: the commit's when it fails, else the push's, else none. */
    function PublishError(n: nat, message: string, branch: string): (e: Option<Exc>)
      ensures e.None? <==> Succeeded(n, Commit(message)) && Succeeded(n + 1, PushUpstream(branch))
    {
      if !Succeeded(n, Commit(message)) then Some(Raising(git(n, Commit(message)), Commit(message)).exc)
      else if !Succeeded(n + 1, PushUpstream(branch)) then
        Some(Raising(git(n + 1, PushUpstream(branch)), PushUpstream(branch)).exc)
      else None
    }

    /** The exception a failed `git add` of `path`, the `n`-th command,
        becomes in the file loop. */
    function AddError(n: nat, path: string): Exc
      requires !Succeeded(n, Add(path))
    {
      Exc("Exception", "Error processing file " + path + ": " + Raising(git(n, Add(path)), Add(path)).exc.msg)
    }

    /** The exception the file loop raises from the `k`-th file on, the adds
        being issued from the `n`-th command on: that of the first add that
        fails, if any. */
    function StageError(n: nat, files: seq<(string, string)>, k: nat): Option<Exc>
      requires k <= |files|
      decreases |files| - k
    {
      if k == |files| then None
      else if !Succeeded(n + k, Add(files[k].0)) then Some(AddError(n + k, files[k].0))
      else StageError(n, files, k + 1)
    }

    /** From the `k`-th file on, the loop raises nothing exactly when every
        add from there on succeeds. */
    lemma {:induction false} StageErrorNone(n: nat, files: seq<(string, string)>, k: nat)
      requires k <= |files|
      ensures StageError(n, files, k).None? <==> forall i :: k <= i < |files| ==> Succeeded(n + i, Add(files[i].0))
      decreases |files| - k
    {
      if k < |files| {
        StageErrorNone(n, files, k + 1);
      }
    }

    /** The loop reports the first failing add, with its own file. */
    lemma {:induction false} StageErrorFirst(n: nat, files: seq<(string, string)>, k: nat, j: nat)
      requires k <= j < |files| && !Succeeded(n + j, Add(files[j].0))
      requires forall i :: k <= i < j ==> Succeeded(n + i, Add(files[i].0))
      ensures StageError(n, files, k) == Some(AddError(n + j, files[j].0))
      decreases j - k
    {
      if k < j {
        StageErrorFirst(n, files, k + 1, j);
      }
    }

    /** The exception the file loop and the commit and push raise: the file
        loop's, else the publishing one. */
    function StageAndPublishError(n: nat, files: seq<(string, string)>, message: string, branch: string): Option<Exc> {
      if StageError(n, files, 0).Some? then StageError(n, files, 0)
      else PublishError(n + |files|, message, branch)
    }

    /** Nothing is raised exactly when every step succeeds. */
    lemma StageAndPublishErrorNone(n: nat, files: seq<(string, string)>, message: string, branch: string)
      ensures StageAndPublishError(n, files, message, branch).None? <==> WouldPublish(n, files, message, branch)
    {
      StageErrorNone(n, files, 0);
    }

    /** What `propose_code_changes` returns once the current and the target
        branch are known, its commands starting at the `n`-th. */
    function OnBranchResult(n: nat, files: seq<(string, string)>, message: string, branch: string,
                            current: string): Result<string>
    {
      var s := SwitchTrace(n, branch, current);
      if !Switched(n, s, branch, current) then
        Raised(Exc("Exception", "Error creating or switching to branch '" + branch + "'."))
      else match StageAndPublishError(n + |s|, files, message, branch)
           case None => Ok(branch)
           case Some(e) => Raised(e)
    }

    /** The proposal succeeds, with the branch name, exactly when the switch
        and every later step succeed; a failed switch raises its own error. */
    lemma OnBranchSucceeds(n: nat, files: seq<(string, string)>, message: string, branch: string, current: string)
      ensures var s := SwitchTrace(n, branch, current);
              var r := OnBranchResult(n, files, message, branch, current);
              && (r.Ok? <==> Switched(n, s, branch, current) && WouldPublish(n + |s|, files, message, branch))
              && (r.Ok? ==> r.value == branch)
              && (!Switched(n, s, branch, current) ==>
                    r == Raised(Exc("Exception", "Error creating or switching to branch '" + branch + "'.")))
    {
      StageAndPublishErrorNone(n + |SwitchTrace(n, branch, current)|, files, message, branch);
    }

    /** The result once the switch has been tried. */
    lemma OnBranchResultAt(n: nat, files: seq<(string, string)>, message: string, branch: string, current: string,
                           s: seq<Command>)
      requires s == SwitchTrace(n, branch, current)
      ensures !Switched(n, s, branch, current) ==>
        OnBranchResult(n, files, message, branch, current) ==
        Raised(Exc("Exception", "Error creating or switching to branch '" + branch + "'."))
      ensures Switched(n, s, branch, current) && StageAndPublishError(n + |s|, files, message, branch).None? ==>
        OnBranchResult(n, files, message, branch, current) == Ok(branch)
      ensures Switched(n, s, branch, current) && StageAndPublishError(n + |s|, files, message, branch).Some? ==>
        OnBranchResult(n, files, message, branch, current) ==
        Raised(StageAndPublishError(n + |s|, files, message, branch).value)
    {
    }

    /** After a successful switch, the proposal's result is the file loop's,
        commit's or push's error, or the branch when all of them succeed. */
    lemma ProposedAt(n: nat, m: nat, files: seq<(string, string)>, message: string, branch: string,
                     current: string, s: seq<Command>, p: seq<Command>, error: Option<Exc>)
      requires s == SwitchTrace(n, branch, current) && Switched(n, s, branch, current) && m == n + |s|
      requires error == StageAndPublishError(m, files, message, branch)
      requires error.None? ==> Published(m, p, files, message, branch, current)
      ensures error.None? ==>
        Proposed(n, s, p, files, message, branch, current) &&
        OnBranchResult(n, files, message, branch, current) == Ok(branch)
      ensures error.Some? ==> OnBranchResult(n, files, message, branch, current) == Raised(error.value)
    {
      OnBranchResultAt(n, files, message, branch, current, s);
    }

    /** `_run_git_command` */
    method RunGit(command: Command, raiseOnError: bool) returns (r: Result<GitReply>)
      modifies this`issued
      ensures !isRepo ==> r == Ok(NotRun("", "Not a git repository", 1)) && issued == old(issued)
      ensures isRepo ==> issued == old(issued) + [command]
      ensures isRepo && !raiseOnError ==> r == Ok(Answer(git(|old(issued)|, command)))
      ensures isRepo && raiseOnError ==> r == Raising(git(|old(issued)|, command), command)
    {
      if !isRepo {
        return Ok(NotRun("", "Not a git repository", 1));
      }
      var run := git(|issued|, command);
      issued := issued + [command];
      r := if raiseOnError then Raising(run, command) else Ok(Answer(run));
    }

    /** `checkout_branch`: one checkout, retried once as a plain checkout when
        `-b` failed because the branch is already there. */
    method CheckoutBranch(branch: string, create: bool, base: string) returns (ok: bool)
      modifies this`issued
      decreases create
      ensures old(issued) <= issued
      ensures !isRepo ==> !ok && issued == old(issued)
      ensures isRepo && !create ==>
        issued == old(issued) + [Checkout(branch)] &&
        (ok <==> Reply(|old(issued)|, Checkout(branch)).code == 0)
      ensures isRepo && create ==>
        var n := |old(issued)|;
        var reply := Reply(n, CheckoutNew(branch, base));
        (reply.code == 0 ==> ok && issued == old(issued) + [CheckoutNew(branch, base)]) &&
        (reply.code != 0 && AlreadyThere(reply) ==>
           issued == old(issued) + [CheckoutNew(branch, base), Checkout(branch)] &&
           (ok <==> Reply(n + 1, Checkout(branch)).code == 0)) &&
        (reply.code != 0 && !AlreadyThere(reply) ==> !ok && issued == old(issued) + [CheckoutNew(branch, base)])
    {
      if !isRepo {
        return false;
      }
      var r := RunGit(CheckoutCommand(branch, create, base), false);
      var reply := r.value;
      if reply.code == 0 {
        return true;
      }
      if create && AlreadyThere(reply) {
        ok := CheckoutBranch(branch, false, "");
        return;
      }
      return false;
    }

    /** Make `branch` the checked-out branch: `checkout -b` from `current`,
        then a plain checkout if that fails; true when the last checkout
        issued exited with code 0. */
    method SwitchTo(branch: string, current: string) returns (ok: bool, ghost t: seq<Command>)
      requires isRepo
      modifies this`issued
      ensures issued == old(issued) + t && 0 < |t| <= 3 && t[0] == CheckoutNew(branch, current)
      ensures ok <==> Switched(|old(issued)|, t, branch, current)
      ensures t == SwitchTrace(|old(issued)|, branch, current)
    {
      ghost var n := |old(issued)|;
      ghost var reply := Reply(n, CheckoutNew(branch, current));
      ok := CheckoutBranch(branch, true, current);
      ghost var first := issued[n..];
      if reply.code == 0 || !AlreadyThere(reply) {
        assert first == [CheckoutNew(branch, current)];
      } else {
        assert first == [CheckoutNew(branch, current), Checkout(branch)];
        assert ok <==> Reply(n + 1, Checkout(branch)).code == 0;
      }
      if !ok {
        ok := CheckoutBranch(branch, false, "");
        assert issued[n..] == first + [Checkout(branch)];
        assert ok <==> Reply(n + |first|, Checkout(branch)).code == 0;
      }
      t := issued[n..];
    }

    /** The file loop of `propose_code_changes`: write each file and stage it;
        the first `git add` that fails switches back to `current` and raises.
        `staged` is the number of files staged when the loop stopped and `t`
        the `git add` commands that succeeded. */
    method StageFiles(files: seq<(string, string)>, current: string)
      returns (staged: nat, error: Option<Exc>, ghost t: seq<Command>)
      requires isRepo
      modifies this
      ensures staged <= |files| && (error.None? <==> staged == |files|)
      ensures Staged(|old(issued)|, t, files[..staged])
      ensures error.None? ==> issued == old(issued) + t && worktree == WriteAll(old(worktree), files)
      ensures error.Some? ==>
        var n := |old(issued)|;
        var path := files[staged].0;
        issued == old(issued) + t + [Add(path), Checkout(current)] &&
        !Succeeded(n + staged, Add(path)) &&
        worktree == WriteAll(old(worktree), files[..staged + 1]) &&
        error.value == AddError(n + staged, path)
      ensures error == StageError(|old(issued)|, files, 0)
    {
      ghost var n := |old(issued)|;
      staged, error, t := 0, None, [];
      while staged < |files|
        invariant staged <= |files| && error.None?
        invariant issued == old(issued) + t
        invariant worktree == WriteAll(old(worktree), files[..staged])
        invariant Staged(n, t, files[..staged])
        invariant |t| == staged
      {
        WriteAllNext(old(worktree), files, staged);
        error := StageOne(files[staged].0, files[staged].1, current, n + staged);
        if error.Some? {
          StageStops(n, t, files, staged);
          return;
        }
        StagedNext(n, t, files, staged);
        t := t + [Add(files[staged].0)];
        staged := staged + 1;
      }
      assert files[..staged] == files;
      StageErrorNone(n, files, 0);
    }

    /** One turn of the file loop: write the file and stage it; when staging
        raises, switch back to `current` and report the file. */
    method StageOne(path: string, content: string, current: string, ghost k: nat) returns (error: Option<Exc>)
      requires isRepo && k == |issued|
      modifies this
      ensures worktree == old(worktree)[path := content]
      ensures error.None? <==> Succeeded(k, Add(path))
      ensures error.None? ==> issued == old(issued) + [Add(path)]
      ensures error.Some? ==>
        issued == old(issued) + [Add(path), Checkout(current)] &&
        error == Some(AddError(k, path))
    {
      worktree := worktree[path := content];
      var added := RunGit(Add(path), true);
      if added.Raised? {
        var back := CheckoutBranch(current, false, "");
        return Some(Exc("Exception", "Error processing file " + path + ": " + added.exc.msg));
      }
      return None;
    }

    /** The end of `propose_code_changes`: commit and push (a failure of
        either raises), then switch back to `current`. */
    method Publish(message: string, branch: string, current: string) returns (error: Option<Exc>, ghost t: seq<Command>)
      requires isRepo
      modifies this`issued
      ensures issued == old(issued) + t
      ensures
        var n := |old(issued)|;
        (error.None? <==> Succeeded(n, Commit(message)) && Succeeded(n + 1, PushUpstream(branch))) &&
        (!Succeeded(n, Commit(message)) ==>
           t == [Commit(message)] &&
           error == Some(Raising(git(n, Commit(message)), Commit(message)).exc)) &&
        (Succeeded(n, Commit(message)) && !Succeeded(n + 1, PushUpstream(branch)) ==>
           t == [Commit(message), PushUpstream(branch)] &&
           error == Some(Raising(git(n + 1, PushUpstream(branch)), PushUpstream(branch)).exc)) &&
        (error.None? ==> t == [Commit(message), PushUpstream(branch), Checkout(current)])
      ensures error == PublishError(|old(issued)|, message, branch)
    {
      var commit := RunGit(Commit(message), true);
      if commit.Raised? {
        return Some(commit.exc), [Commit(message)];
      }
      var push := RunGit(PushUpstream(branch), true);
      if push.Raised? {
        return Some(push.exc), [Commit(message), PushUpstream(branch)];
      }
      var back := CheckoutBranch(current, false, "");
      return None, [Commit(message), PushUpstream(branch), Checkout(current)];
    }

    /** `propose_code_changes`: write the files on the target branch, stage,
        commit and push them, and switch back. */
    method ProposeCodeChanges(files: seq<(string, string)>, message: string, branchName: Option<string>,
                              prefix: Option<string>, proposalId: Option<string>, randomHex: string)
      returns (r: Result<string>, ghost switching: seq<Command>, ghost publishing: seq<Command>)
      modifies this
      ensures old(issued) <= issued
      ensures !isRepo ==>
        r == Raised(Exc("Exception", "Error: Current path is not a Git repository.")) &&
        issued == old(issued) && worktree == old(worktree)
      ensures isRepo && Reply(|old(issued)|, RevParseHead).code != 0 ==>
        r == Raised(Exc("Exception", "Error getting current branch: " + Reply(|old(issued)|, RevParseHead).Stdout())) &&
        issued == old(issued) + [RevParseHead] && worktree == old(worktree)
      ensures isRepo && Reply(|old(issued)|, RevParseHead).code == 0 ==>
        issued == old(issued) + [RevParseHead] + switching + publishing && 0 < |switching| &&
        switching[0] == CheckoutNew(TargetBranch(branchName, prefix, proposalId, randomHex, message),
                                    Strip(Reply(|old(issued)|, RevParseHead).Stdout()))
      ensures r.Ok? ==>
        var n := |old(issued)|;
        isRepo && Reply(n, RevParseHead).code == 0 &&
        r.value == TargetBranch(branchName, prefix, proposalId, randomHex, message) &&
        worktree == WriteAll(old(worktree), files) &&
        Proposed(n + 1, switching, publishing, files, message, r.value, Strip(Reply(n, RevParseHead).Stdout()))
      ensures isRepo && Reply(|old(issued)|, RevParseHead).code == 0 ==>
        var n := |old(issued)|;
        r == OnBranchResult(n + 1, files, message, TargetBranch(branchName, prefix, proposalId, randomHex, message),
                            Strip(Reply(n, RevParseHead).Stdout()))
    {
      if !isRepo {
        return Raised(Exc("Exception", "Error: Current path is not a Git repository.")), [], [];
      }
      var branch := TargetBranch(branchName, prefix, proposalId, randomHex, message);
      r, switching, publishing := ProposeFromHead(files, message, branch);
      IssuedGrows(old(issued), [RevParseHead], switching, publishing);
    }

    /** `propose_code_changes` in a repository: read the current branch, then
        propose on `branch` from it. */
    method ProposeFromHead(files: seq<(string, string)>, message: string, branch: string)
      returns (r: Result<string>, ghost switching: seq<Command>, ghost publishing: seq<Command>)
      requires isRepo
      modifies this
      ensures Reply(|old(issued)|, RevParseHead).code != 0 ==>
        r == Raised(Exc("Exception", "Error getting current branch: " + Reply(|old(issued)|, RevParseHead).Stdout())) &&
        issued == old(issued) + [RevParseHead] && worktree == old(worktree)
      ensures Reply(|old(issued)|, RevParseHead).code == 0 ==>
        issued == old(issued) + [RevParseHead] + switching + publishing && 0 < |switching| &&
        switching[0] == CheckoutNew(branch, Strip(Reply(|old(issued)|, RevParseHead).Stdout()))
      ensures r.Ok? ==>
        var n := |old(issued)|;
        Reply(n, RevParseHead).code == 0 && r.value == branch &&
        worktree == WriteAll(old(worktree), files) &&
        Proposed(n + 1, switching, publishing, files, message, branch, Strip(Reply(n, RevParseHead).Stdout()))
      ensures Reply(|old(issued)|, RevParseHead).code == 0 ==>
        var n := |old(issued)|;
        r == OnBranchResult(n + 1, files, message, branch, Strip(Reply(n, RevParseHead).Stdout()))
    {
      ghost var n := |issued|;
      var head := RunGit(RevParseHead, false);
      assert head.value == Reply(n, RevParseHead);
      if head.value.code != 0 {
        return Raised(Exc("Exception", "Error getting current branch: " + head.value.Stdout())), [], [];
      }
      var current := Strip(head.value.Stdout());
      assert |issued| == n + 1;
      r, switching, publishing := ProposeOnBranch(files, message, branch, current);
    }

    /** `propose_code_changes` once the current and the target branch are known. */
    method ProposeOnBranch(files: seq<(string, string)>, message: string, branch: string, current: string)
      returns (r: Result<string>, ghost switching: seq<Command>, ghost publishing: seq<Command>)
      requires isRepo
      modifies this
      ensures issued == old(issued) + switching + publishing
      ensures 0 < |switching| && switching[0] == CheckoutNew(branch, current)
      ensures r.Ok? ==>
        r.value == branch && worktree == WriteAll(old(worktree), files) &&
        Proposed(|old(issued)|, switching, publishing, files, message, branch, current)
      ensures r == OnBranchResult(|old(issued)|, files, message, branch, current)
    {
      ghost var n := |issued|;
      var switched;
      switched, switching := SwitchTo(branch, current);
      publishing := [];
      if !switched {
        OnBranchResultAt(n, files, message, branch, current, switching);
        IssuedInTwo(old(issued), switching, []);
        return Raised(Exc("Exception", "Error creating or switching to branch '" + branch + "'.")), switching, publishing;
      }
      ghost var m := |issued|;
      var error;
      error, publishing := StageAndPublish(files, message, branch, current);
      ProposedAt(n, m, files, message, branch, current, switching, publishing, error);
      if error.Some? {
        return Raised(error.value), switching, publishing;
      }
      return Ok(branch), switching, publishing;
    }

    /** The file loop and the commit and push of `propose_code_changes`. */
    method StageAndPublish(files: seq<(string, string)>, message: string, branch: string, current: string)
      returns (error: Option<Exc>, ghost t: seq<Command>)
      requires isRepo
      modifies this
      ensures issued == old(issued) + t
      ensures error.None? ==>
        worktree == WriteAll(old(worktree), files) &&
        Published(|old(issued)|, t, files, message, branch, current)
      ensures error == StageAndPublishError(|old(issued)|, files, message, branch)
      ensures error.None? <==> WouldPublish(|old(issued)|, files, message, branch)
    {
      ghost var n := |old(issued)|;
      var staged, stageError, staging := StageFiles(files, current);
      StageAndPublishErrorNone(n, files, message, branch);
      if stageError.Some? {
        IssuedInTwo(old(issued), staging, [Add(files[staged].0), Checkout(current)]);
        return stageError, staging + [Add(files[staged].0), Checkout(current)];
      }
      ghost var m := |issued|;
      StagedAll(n, m, staging, files, staged);
      ghost var publishing;
      error, publishing := Publish(message, branch, current);
      IssuedInTwo(old(issued), staging, publishing);
      t := staging + publishing;
      PublishPath(n, m, files, message, branch, error);
      if error.None? {
        PublishedJoin(n, m, staging, publishing, files, message, branch, current);
      }
    }

    /** The last steps of a merge: push the target, then optionally delete
        the merged branch locally and remotely. */
    method PushMerged(branch: string, target: string, delete: bool) returns (ok: bool, msg: string)
      requires isRepo
      modifies this`issued
      ensures ok <==> Reply(|old(issued)|, Push(target)).code == 0
      ensures issued == old(issued) + ([Push(target)] + (if ok then Deletions(branch, delete) else []))
      ensures msg == if ok then MergedMessage(branch, target)
                     else PushFailed(target, Reply(|old(issued)|, Push(target)).Stderr())
    {
      var push := RunGit(Push(target), false);
      if push.value.code != 0 {
        return false, PushFailed(target, push.value.Stderr());
      }
      if delete {
        var local := RunGit(DeleteLocal(branch), false);
        var remote := RunGit(DeleteRemote(branch), false);
      }
      return true, MergedMessage(branch, target);
    }

    /** The steps of a merge once the target is checked out: pull, merge,
        and abort the merge or push it. */
    method MergeOnTarget(branch: string, target: string, delete: bool) returns (ok: bool, msg: string)
      requires isRepo
      modifies this`issued
      ensures issued == old(issued) + TargetBody(|old(issued)|, branch, target, delete)
      ensures ok <==> Reply(|old(issued)| + 1, Merge(branch)).code == 0 && Reply(|old(issued)| + 2, Push(target)).code == 0
      ensures msg == TargetMessage(|old(issued)|, branch, target)
    {
      ghost var n := |issued|;
      var pull := RunGit(Pull(target), false);
      var merge := RunGit(Merge(branch), false);
      assert issued == old(issued) + [Pull(target), Merge(branch)];
      if merge.value.code != 0 {
        var abort := RunGit(MergeAbort, false);
        TargetCases(n, branch, target, delete);
        return false, MergeConflict(branch, merge.value.Stderr());
      }
      ghost var mid := issued;
      ok, msg := PushMerged(branch, target, delete);
      TargetCases(n, branch, target, delete);
      IssuedInTwo(old(issued), [Pull(target), Merge(branch)], [Push(target)] + (if ok then Deletions(branch, delete) else []));
    }

    /** The body of the `try` in `merge_branch`, run once the current branch is known. */
    method MergeSteps(branch: string, target: string, delete: bool) returns (ok: bool, msg: string)
      requires isRepo
      modifies this`issued
      ensures issued == old(issued) + MergeBody(|old(issued)|, branch, target, delete)
      ensures ok <==> MergeSucceeds(|old(issued)|, branch, target)
      ensures msg == MergeMessage(|old(issued)|, branch, target)
    {
      ghost var n := |issued|;
      var checkedOut := CheckoutBranch(target, false, "");
      if !checkedOut {
        return false, CheckoutFailed(target);
      }
      ghost var mid := issued;
      ok, msg := MergeOnTarget(branch, target, delete);
      assert issued == old(issued) + ([Checkout(target)] + TargetBody(n + 1, branch, target, delete));
    }

    /** The `try`/`finally` of `merge_branch`: the merge steps, then the
        checkout back to `current`, whatever they did. */
    method MergeReturning(branch: string, target: string, delete: bool, current: string) returns (ok: bool, msg: string)
      requires isRepo
      modifies this`issued
      ensures issued == old(issued) + MergeTrace(|old(issued)|, branch, target, delete, current)
      ensures ok <==> MergeSucceeds(|old(issued)|, branch, target)
      ensures msg == MergeMessage(|old(issued)|, branch, target)
    {
      ok, msg := MergeSteps(branch, target, delete);
      var back := CheckoutBranch(current, false, "");
    }

    /** `merge_branch`: the outcome depends only on the target checkout, the
        merge and the target push; the pull and the branch deletions never
        decide it, and the branch current on entry is checked out last. */
    method MergeBranch(branch: string, target: string, delete: bool) returns (ok: bool, msg: string)
      modifies this`issued
      ensures !isRepo ==> !ok && msg == "Not a Git repository." && issued == old(issued)
      ensures
        var n := |old(issued)|;
        isRepo && Reply(n, RevParseHead).code != 0 ==>
          !ok && issued == old(issued) + [RevParseHead] &&
          msg == "Could not get current branch: " + Reply(n, RevParseHead).Stdout()
      ensures
        var n := |old(issued)|;
        isRepo && Reply(n, RevParseHead).code == 0 ==>
          issued == old(issued) + [RevParseHead]
                    + MergeTrace(n + 1, branch, target, delete, Strip(Reply(n, RevParseHead).Stdout())) &&
          (ok <==> MergeSucceeds(n + 1, branch, target)) && msg == MergeMessage(n + 1, branch, target)
    {
      if !isRepo {
        return false, "Not a Git repository.";
      }
      var head := RunGit(RevParseHead, false);
      if head.value.code != 0 {
        return false, "Could not get current branch: " + head.value.Stdout();
      }
      var current := Strip(head.value.Stdout());
      ok, msg := MergeReturning(branch, target, delete, current);
    }

    /** The `try` body of `sandbox_test`: every git call raises on failure,
        and a raise makes the test fail. */
    method SandboxSteps(branch: string, output: string) returns (passed: bool)
      requires isRepo
      modifies this`issued
      ensures
        var n := |old(issued)|;
        old(issued) + [Fetch(branch)] <= issued && |issued| <= n + 3 &&
        (passed <==> Succeeded(n, Fetch(branch)) && Succeeded(n + 1, Checkout(branch)) &&
                     Succeeded(n + 2, Pull(branch)) && hasTestScript && SandboxPassed(output))
    {
      var fetch := RunGit(Fetch(branch), true);
      if fetch.Raised? {
        return false;
      }
      var checkout := RunGit(Checkout(branch), true);
      if checkout.Raised? || checkout.value.code != 0 {
        return false;
      }
      var pull := RunGit(Pull(branch), true);
      if pull.Raised? {
        return false;
      }
      if !hasTestScript {
        return false;
      }
      return SandboxPassed(output);
    }

    /** `sandbox_test`, given the text the sandbox's test run returns. */
    method SandboxTest(branch: string, output: string) returns (r: Result<bool>)
      modifies this`issued
      ensures !hasSandbox ==> r == Ok(false) && issued == old(issued)
      ensures r.Raised? ==> hasSandbox && isRepo && issued == old(issued) + [RevParseHead]
      ensures
        var n := |old(issued)|;
        r == Ok(true) <==>
          hasSandbox && isRepo && Succeeded(n, RevParseHead) &&
          Succeeded(n + 1, Fetch(branch)) && Succeeded(n + 2, Checkout(branch)) &&
          Succeeded(n + 3, Pull(branch)) && hasTestScript && SandboxPassed(output)
      ensures hasSandbox && isRepo && Succeeded(|old(issued)|, RevParseHead) ==>
        |issued| >= |old(issued)| + 3 && issued[|old(issued)|] == RevParseHead &&
        issued[|issued| - 1] == Checkout(Strip(git(|old(issued)|, RevParseHead).stdout))
    {
      if !hasSandbox {
        return Ok(false);
      }
      var head := RunGit(RevParseHead, true);
      if head.Raised? {
        return Raised(head.exc);
      }
      if head.value.code != 0 {
        return Ok(false);
      }
      var original := head.value.Stdout();
      var passed := SandboxSteps(branch, output);
      var back := RunGit(Checkout(original), false);
      return Ok(passed);
    }
  }
}
