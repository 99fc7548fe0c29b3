/** GitCliRepoProvider: resolving a ref to a commit through up to three
    `git ls-remote` lookups, and fetching a one-commit shallow snapshot into a
    working directory. */
module GitProvider {
  import opened Common
  import opened Text
  import opened Process
  import opened Workdir

  /** The provider's fixed timeout for every git command, in milliseconds. */
  const GitTimeoutMs: nat := 60000

  /** The message the resolver fails with when no tier yields a line. */
  const NotFoundPrefix := "ref not found: "

  // ================================================================ resolveCommit

  /** `git ls-remote <repoUrl> <pattern>`, run with no working directory. */
  function LsRemote(repoUrl: string, pattern: string): Command
  {
    Command("git", ["ls-remote", repoUrl, pattern], None, GitTimeoutMs)
  }

  /** The three lookups in priority order: the ref as given, as a branch head,
      as a tag. */
  function Tiers(repoUrl: string, ref: string): seq<Command>
  {
    [LsRemote(repoUrl, ref), LsRemote(repoUrl, "refs/heads/" + ref), LsRemote(repoUrl, "refs/tags/" + ref)]
  }

  /** `stdout.split("\n").find(Boolean)` */
  function FirstLine(stdout: string): Option<string>
  {
    FirstNonEmpty(Split(stdout, '\n'))
  }

  /** `line.split("\t")[0].trim()` */
  function CommitOf(line: string): string
  {
    Trim(Split(line, '\t')[0])
  }

  /** `.catch(() => ({ stdout: "", stderr: "" }))`: a failed lookup reads as
      empty output. */
  function Tolerate(r: Result<string, string>): string
  {
    match r
    case Ok(stdout) => stdout
    case Err(_) => ""
  }

  /** The outcome of `resolveCommit` together with the lookups it issued, in
      the order issued. */
  datatype Resolution = Resolution(outcome: Result<string, string>, lookups: seq<Command>)

  /** `resolveCommit(repoUrl, ref)` against the environment `sh`. */
  function ResolveCommit(sh: Shell, repoUrl: string, ref: string): (res: Resolution)
    ensures 1 <= |res.lookups| <= 3 && res.lookups == Tiers(repoUrl, ref)[..|res.lookups|]
  {
    var tiers := Tiers(repoUrl, ref);
    match sh(tiers[0])
    case Err(e) => Resolution(Err(e), tiers[..1])
    case Ok(stdout) =>
      match FirstLine(stdout)
      case Some(line) => Resolution(Ok(CommitOf(line)), tiers[..1])
      case None =>
        match FirstLine(Tolerate(sh(tiers[1])))
        case Some(headLine) => Resolution(Ok(CommitOf(headLine)), tiers[..2])
        case None =>
          match FirstLine(Tolerate(sh(tiers[2])))
          case Some(tagLine) => Resolution(Ok(CommitOf(tagLine)), tiers)
          case None => Resolution(Err(NotFoundPrefix + ref), tiers)
  }

  // ---------------------------------------------------------------- reference: a search over tiers

  /** One lookup: a strict lookup passes its error on, a tolerant one reads an
      error as empty output. */
  function Probe(sh: Shell, cmd: Command, strict: bool): Result<string, string>
  {
    if strict then sh(cmd) else Ok(Tolerate(sh(cmd)))
  }

  /** Reference definition of the fallback: try the tiers in order, stop at the
      first error of a strict lookup or the first output that has a line, and
      fail with the not-found message when every tier comes back empty. */
  function SearchTiers(sh: Shell, tiers: seq<Command>, strict: bool, ref: string): Resolution
    decreases |tiers|
  {
    if tiers == [] then Resolution(Err(NotFoundPrefix + ref), [])
    else
      match Probe(sh, tiers[0], strict)
      case Err(e) => Resolution(Err(e), [tiers[0]])
      case Ok(stdout) =>
        match FirstLine(stdout)
        case Some(line) => Resolution(Ok(CommitOf(line)), [tiers[0]])
        case None =>
          var rest := SearchTiers(sh, tiers[1..], false, ref);
          Resolution(rest.outcome, [tiers[0]] + rest.lookups)
  }

  /** The resolver is the search over its three tiers, only the first strict. */
  lemma ResolveIsTierSearch(sh: Shell, repoUrl: string, ref: string)
    ensures ResolveCommit(sh, repoUrl, ref) == SearchTiers(sh, Tiers(repoUrl, ref), true, ref)
  {
    var t := Tiers(repoUrl, ref);
    assert t[1..][1..] == [t[2]];
    assert t[1..][1..][1..] == [];
    assert [t[2]][1..] == [] && [t[2]] + [] == [t[2]];
    assert Probe(sh, t[2], false) == Ok(Tolerate(sh(t[2])));
    assert Probe(sh, t[1], false) == Ok(Tolerate(sh(t[1])));
    assert SearchTiers(sh, [], false, ref) == Resolution(Err(NotFoundPrefix + ref), []);
    var last := SearchTiers(sh, [t[2]], false, ref);
    assert last == match FirstLine(Tolerate(sh(t[2])))
                   case Some(l) => Resolution(Ok(CommitOf(l)), [t[2]])
                   case None => Resolution(Err(NotFoundPrefix + ref), [t[2]]);
    var second := SearchTiers(sh, t[1..], false, ref);
    assert second == match FirstLine(Tolerate(sh(t[1])))
                     case Some(l) => Resolution(Ok(CommitOf(l)), [t[1]])
                     case None => Resolution(last.outcome, [t[1]] + last.lookups);
    assert t[..1] == [t[0]] && t[..2] == [t[0], t[1]] && t == [t[0], t[1], t[2]];
  }

  /** The search looks the tiers up in order, never skips one, and goes on to
      the next only after a lookup that came back without a line. */
  lemma {:induction false} SearchTiersInOrder(sh: Shell, tiers: seq<Command>, strict: bool, ref: string)
    requires tiers != []
    ensures var res := SearchTiers(sh, tiers, strict, ref);
      1 <= |res.lookups| <= |tiers| && res.lookups == tiers[..|res.lookups|] &&
      forall i :: 0 <= i < |res.lookups| - 1 ==>
        Probe(sh, tiers[i], strict && i == 0).Ok? &&
        FirstLine(Probe(sh, tiers[i], strict && i == 0).value).None?
  {
    var res := SearchTiers(sh, tiers, strict, ref);
    var p := Probe(sh, tiers[0], strict);
    if p.Ok? && FirstLine(p.value).None? && |tiers| > 1 {
      var rest := SearchTiers(sh, tiers[1..], false, ref);
      SearchTiersInOrder(sh, tiers[1..], false, ref);
      assert res.lookups == [tiers[0]] + rest.lookups;
      var n := |res.lookups|;
      assert res.lookups == tiers[..n];
      forall i | 1 <= i < n - 1
        ensures Probe(sh, tiers[i], strict && i == 0).Ok? &&
                FirstLine(Probe(sh, tiers[i], strict && i == 0).value).None?
      {
        assert tiers[i] == tiers[1..][i - 1];
      }
    } else if p.Ok? && FirstLine(p.value).None? {
      assert tiers[1..] == [];
      assert res.lookups == [tiers[0]];
    }
  }

  // ---------------------------------------------------------------- the resolver's properties

  /** A tier-1 failure propagates unchanged after a single lookup: the literal
      ref, no working directory, the 60 s timeout. */
  lemma Tier1FailurePropagates(sh: Shell, repoUrl: string, ref: string)
    requires sh(LsRemote(repoUrl, ref)).Err?
    ensures ResolveCommit(sh, repoUrl, ref) ==
            Resolution(Err(sh(LsRemote(repoUrl, ref)).error),
                       [Command("git", ["ls-remote", repoUrl, ref], None, 60000)])
  {
  }

  /** Tier order and call counts: tier k+1 is looked up only when tiers 1..k
      gave no line (a tier-2 or tier-3 error counting as no line), and the
      resolved commit comes from the first tier that gave one. */
  lemma ResolveTierOrder(sh: Shell, repoUrl: string, ref: string)
    ensures var res := ResolveCommit(sh, repoUrl, ref);
      var t := Tiers(repoUrl, ref);
      var out1, out2, out3 := sh(t[0]), Tolerate(sh(t[1])), Tolerate(sh(t[2]));
      (out1.Err? ==> res == Resolution(Err(out1.error), t[..1])) &&
      (out1.Ok? && FirstLine(out1.value).Some? ==>
         res == Resolution(Ok(CommitOf(FirstLine(out1.value).value)), t[..1])) &&
      (out1.Ok? && FirstLine(out1.value).None? && FirstLine(out2).Some? ==>
         res == Resolution(Ok(CommitOf(FirstLine(out2).value)), t[..2])) &&
      (out1.Ok? && FirstLine(out1.value).None? && FirstLine(out2).None? && FirstLine(out3).Some? ==>
         res == Resolution(Ok(CommitOf(FirstLine(out3).value)), t)) &&
      (out1.Ok? && FirstLine(out1.value).None? && FirstLine(out2).None? && FirstLine(out3).None? ==>
         res == Resolution(Err(NotFoundPrefix + ref), t))
  {
  }

  /** The not-found failure happens exactly when tier 1 succeeds and no tier
      yields a line, and always after three lookups. */
  lemma {:induction false} NotFoundAfterThreeLookups(sh: Shell, repoUrl: string, ref: string)
    requires sh(LsRemote(repoUrl, ref)).Ok?
    ensures var res := ResolveCommit(sh, repoUrl, ref);
      res.outcome.Err? <==>
        forall k :: 0 <= k < 3 ==> FirstLine(Probe(sh, Tiers(repoUrl, ref)[k], k == 0).value).None?
    ensures var res := ResolveCommit(sh, repoUrl, ref);
      res.outcome.Err? ==> res.outcome.error == NotFoundPrefix + ref && |res.lookups| == 3
  {
    ResolveTierOrder(sh, repoUrl, ref);
    var t := Tiers(repoUrl, ref);
    assert Probe(sh, t[0], true) == sh(t[0]);
    assert Probe(sh, t[1], false).value == Tolerate(sh(t[1]));
    assert Probe(sh, t[2], false).value == Tolerate(sh(t[2]));
  }

  /** The environment `sh` with every failure of a fallback lookup replaced by
      empty output. */
  function Forgiving(sh: Shell, repoUrl: string, ref: string): Shell
  {
    c => if c in Tiers(repoUrl, ref)[1..] then Ok(Tolerate(sh(c))) else sh(c)
  }

  /** Errors of the branch and tag lookups are indistinguishable from empty
      output: they fall through instead of failing. */
  lemma ForgivenFallbacksChangeNothing(sh: Shell, repoUrl: string, ref: string)
    ensures ResolveCommit(sh, repoUrl, ref) == ResolveCommit(Forgiving(sh, repoUrl, ref), repoUrl, ref)
  {
    var t := Tiers(repoUrl, ref);
    assert |t[0].args[2]| < |t[1].args[2]| && |t[0].args[2]| < |t[2].args[2]|;
    assert t[0] !in t[1..];
    assert Forgiving(sh, repoUrl, ref)(t[0]) == sh(t[0]);
    assert Tolerate(Forgiving(sh, repoUrl, ref)(t[1])) == Tolerate(sh(t[1]));
    assert Tolerate(Forgiving(sh, repoUrl, ref)(t[2])) == Tolerate(sh(t[2]));
  }

  // ---------------------------------------------------------------- parsing rule

  /** FirstLine finds a line exactly when the output has a character other than
      a newline, and that line is the first maximal newline-free run. */
  predicate LineAt(stdout: string, line: string, k: nat)
  {
    k + |line| <= |stdout| && stdout[k..k + |line|] == line &&
    (forall j :: 0 <= j < k ==> stdout[j] == '\n') &&
    (k + |line| == |stdout| || stdout[k + |line|] == '\n')
  }

  lemma {:induction false} FirstLineSpec(stdout: string)
    ensures FirstLine(stdout).None? <==> forall j :: 0 <= j < |stdout| ==> stdout[j] == '\n'
    ensures FirstLine(stdout).Some? ==>
      var line := FirstLine(stdout).value;
      line != "" && '\n' !in line && exists k: nat :: LineAt(stdout, line, k)
  {
    if stdout != [] {
      var rest := Split(stdout[1..], '\n');
      if stdout[0] == '\n' {
        FirstLineSpec(stdout[1..]);
        assert Split(stdout, '\n') == [""] + rest;
        assert ([""] + rest)[1..] == rest;
        assert FirstLine(stdout) == FirstLine(stdout[1..]);
        if FirstLine(stdout).Some? {
          var line := FirstLine(stdout).value;
          var k: nat :| LineAt(stdout[1..], line, k);
          assert stdout[k + 1..k + 1 + |line|] == stdout[1..][k..k + |line|];
          assert LineAt(stdout, line, k + 1);
        }
      } else {
        var line := Split(stdout, '\n')[0];
        FirstPiece(stdout, '\n');
        assert line != "";
        assert FirstLine(stdout) == Some(line);
        assert LineAt(stdout, line, 0);
      }
    }
  }

  /** The commit is the part of the line before its first tab, trimmed; a line
      without a tab is taken whole, trimmed. */
  lemma CommitOfLine(line: string, n: nat)
    requires n <= |line| && '\t' !in line[..n]
    requires n == |line| || line[n] == '\t'
    ensures CommitOf(line) == Trim(line[..n])
  {
    FirstPiece(line, '\t');
  }

  // ---------------------------------------------------------------- scenarios

  /** The sha comes back as given, with no check that it is 40 hexadecimal
      digits: a listing that starts with a tab yields an empty commit. */
  lemma ResolveDoesNotValidateSha(repoUrl: string, ref: string)
    ensures ResolveCommit(_ => Ok("\trefs/heads/main\n"), repoUrl, ref).outcome == Ok("")
  {
    var out := "\trefs/heads/main\n";
    FirstLineSpec(out);
    var line := FirstLine(out).value;
    var k: nat :| LineAt(out, line, k);
    assert k == 0;
    assert line[0] == '\t';
    CommitOfLine(line, 0);
  }

  /** No tier answers: `ref not found: y` after three lookups. */
  lemma MissingRef(repoUrl: string)
    ensures ResolveCommit(_ => Ok(""), repoUrl, "y") ==
            Resolution(Err("ref not found: y"), Tiers(repoUrl, "y"))
  {
    var sh: Shell := _ => Ok("");
    var t := Tiers(repoUrl, "y");
    assert Split("", '\n') == [""];
    assert FirstLine("") == None;
    assert sh(t[0]) == Ok("") && Tolerate(sh(t[1])) == "" && Tolerate(sh(t[2])) == "";
    assert NotFoundPrefix + "y" == "ref not found: y";
  }

  // ================================================================ fetchSnapshot

  /** A git command run in `root`. */
  function GitIn(root: string, args: seq<string>): Command
  {
    Command("git", args, Some(root), GitTimeoutMs)
  }

  /** The four commands of a shallow fetch, in order. */
  function FetchPlan(repoUrl: string, sha: string, root: string): seq<Command>
  {
    [GitIn(root, ["init"]),
     GitIn(root, ["remote", "add", "origin", repoUrl]),
     GitIn(root, ["fetch", "--depth", "1", "origin", sha]),
     GitIn(root, ["checkout", sha])]
  }

  /** The commands that run when `plan` is awaited step by step: each one up to
      and including the first that fails. */
  function Executed(sh: Shell, plan: seq<Command>): (ran: seq<Command>)
    ensures |ran| <= |plan| && ran == plan[..|ran|]
    ensures plan != [] ==> |ran| >= 1
    ensures forall i :: 0 <= i < |ran| - 1 ==> sh(ran[i]).Ok?
    ensures |ran| < |plan| ==> sh(ran[|ran| - 1]).Err?
  {
    if plan == [] then []
    else if sh(plan[0]).Err? then [plan[0]]
    else [plan[0]] + Executed(sh, plan[1..])
  }

  /** The error of the first failing command of `plan`, if one fails. */
  function FirstFailure(sh: Shell, plan: seq<Command>): (e: Option<string>)
    ensures e.None? <==> forall i :: 0 <= i < |plan| ==> sh(plan[i]).Ok?
  {
    if plan == [] then None
    else if sh(plan[0]).Err? then Some(sh(plan[0]).error)
    else FirstFailure(sh, plan[1..])
  }

  /** A failing step stops the sequence: when step i is the first to fail, the
      steps 0..i ran, nothing after them, and its error is the fetch's error. */
  lemma {:induction false} StopsAtFirstFailure(sh: Shell, plan: seq<Command>, i: nat)
    requires i < |plan| && sh(plan[i]).Err?
    requires forall j :: 0 <= j < i ==> sh(plan[j]).Ok?
    ensures Executed(sh, plan) == plan[..i + 1]
    ensures FirstFailure(sh, plan) == Some(sh(plan[i]).error)
  {
    if i > 0 {
      StopsAtFirstFailure(sh, plan[1..], i - 1);
      assert plan[1..][..i] == plan[1..i + 1];
      assert [plan[0]] + plan[1..i + 1] == plan[..i + 1];
    }
  }

  /** A plan whose steps all succeed runs every step, in order. */
  lemma {:induction false} RunsWholePlan(sh: Shell, plan: seq<Command>)
    requires forall j :: 0 <= j < |plan| ==> sh(plan[j]).Ok?
    ensures Executed(sh, plan) == plan
  {
    if plan != [] {
      RunsWholePlan(sh, plan[1..]);
    }
  }

  /** The snapshot a fetch returns. */
  datatype Snapshot = Snapshot(path: string)

  /** What a fetch in `root` returns: the snapshot when every command
      succeeds, otherwise the first failure. */
  function FetchOutcome(sh: Shell, plan: seq<Command>, root: string): Result<Snapshot, string>
  {
    match FirstFailure(sh, plan)
    case None => Ok(Snapshot(root))
    case Some(e) => Err(e)
  }

  /** The four awaited `sh` calls of `fetchSnapshot`, in `root`. */
  method RunFetch(shell: ShellLog, repoUrl: string, sha: string, root: string)
    returns (r: Result<Snapshot, string>)
    modifies shell
    ensures shell.log == old(shell.log) + Executed(shell.respond, FetchPlan(repoUrl, sha, root))
    ensures r == FetchOutcome(shell.respond, FetchPlan(repoUrl, sha, root), root)
  {
    ghost var sh := shell.respond;
    ghost var log0 := shell.log;
    var plan := FetchPlan(repoUrl, sha, root);
    var out := shell.Sh(plan[0]);
    if out.Err? {
      StopsAtFirstFailure(sh, plan, 0);
      return Err(out.error);
    }
    out := shell.Sh(plan[1]);
    if out.Err? {
      StopsAtFirstFailure(sh, plan, 1);
      assert shell.log == log0 + plan[..2];
      return Err(out.error);
    }
    out := shell.Sh(plan[2]);
    if out.Err? {
      StopsAtFirstFailure(sh, plan, 2);
      assert shell.log == log0 + plan[..3];
      return Err(out.error);
    }
    out := shell.Sh(plan[3]);
    if out.Err? {
      StopsAtFirstFailure(sh, plan, 3);
      assert shell.log == log0 + plan[..4];
      return Err(out.error);
    }
    RunsWholePlan(sh, plan);
    assert shell.log == log0 + plan;
    r := Ok(Snapshot(root));
  }

  class GitCliRepoProvider {
    const workdir: WorkdirService

    constructor (workdir: WorkdirService)
      ensures this.workdir == workdir
    {
      this.workdir := workdir;
    }

    /** `fetchSnapshot(repoUrl, sha, dstDir?)`: the directory is `dstDir` when
        given and otherwise one new `repo-` directory; the four fetch commands
        run in it until one fails; success returns that directory. */
    method FetchSnapshot(shell: ShellLog, repoUrl: string, sha: string, dstDir: Option<string>)
      returns (r: Result<Snapshot, string>)
      requires workdir.Valid()
      modifies shell, workdir
      ensures workdir.Valid()
      ensures dstDir.Some? ==> workdir.made == old(workdir.made)
      ensures dstDir.None? ==>
        |workdir.made| == |old(workdir.made)| + 1 &&
        workdir.made[..|old(workdir.made)|] == old(workdir.made) &&
        workdir.made[|workdir.made| - 1] !in old(workdir.made) &&
        |workdir.tmpRoot + "/repo-"| <= |workdir.made[|workdir.made| - 1]| &&
        workdir.made[|workdir.made| - 1][..|workdir.tmpRoot + "/repo-"|] == workdir.tmpRoot + "/repo-"
      ensures var root := if dstDir.Some? then dstDir.value else workdir.made[|workdir.made| - 1];
        shell.log == old(shell.log) + Executed(shell.respond, FetchPlan(repoUrl, sha, root)) &&
        r == FetchOutcome(shell.respond, FetchPlan(repoUrl, sha, root), root)
    {
      var root: string;
      if dstDir.Some? {
        root := dstDir.value;
      } else {
        root := workdir.Make("repo");
        assert workdir.tmpRoot + "/" + "repo" + "-" == workdir.tmpRoot + "/repo-";
        assert workdir.made[..|old(workdir.made)|] == old(workdir.made);
      }
      r := RunFetch(shell, repoUrl, sha, root);
    }
  }

  /** Every fetch command runs in the fetch's directory with the 60 s timeout,
      and the four are init, remote add, a depth-1 fetch of the one commit,
      and its checkout. */
  lemma FetchPlanShape(repoUrl: string, sha: string, root: string)
    ensures var plan := FetchPlan(repoUrl, sha, root);
      |plan| == 4 &&
      (forall i :: 0 <= i < 4 ==> plan[i].program == "git" && plan[i].cwd == Some(root) && plan[i].timeoutMs == 60000) &&
      plan[0].args == ["init"] &&
      plan[1].args == ["remote", "add", "origin", repoUrl] &&
      plan[2].args == ["fetch", "--depth", "1", "origin", sha] &&
      plan[3].args == ["checkout", sha]
  {
  }
}
