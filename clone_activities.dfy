/** The two activities the worker registers, delegating to one provider and
    one work-directory service created once when the module loads. */
module CloneActivities {
  import opened Common
  import opened Process
  import opened Workdir
  import opened GitProvider

  class Activities {
    const workdirService: WorkdirService
    const provider: GitCliRepoProvider

    ghost predicate Valid()
      reads this, workdirService
    {
      provider.workdir == workdirService && workdirService.Valid()
    }

    /** The module's singletons: a work-directory service under `tmpRoot` and
        the provider that uses it. */
    constructor (tmpRoot: string)
      ensures Valid() && fresh(workdirService) && fresh(provider)
      ensures workdirService.tmpRoot == tmpRoot && workdirService.made == []
    {
      var w := new WorkdirService(tmpRoot);
      workdirService := w;
      provider := new GitCliRepoProvider(w);
    }

    /** `resolveCommit(repoUrl, ref)`: the provider's outcome, errors included. */
    function ResolveCommit(sh: Shell, repoUrl: string, ref: string): (r: Result<string, string>)
      ensures r == GitProvider.ResolveCommit(sh, repoUrl, ref).outcome
    {
      GitProvider.ResolveCommit(sh, repoUrl, ref).outcome
    }

    /** `fetchSnapshot(repoUrl, sha)`: never passes a directory, so every call,
        retries included, fetches into a new `repo-` directory it allocates;
        the provider's outcome is returned unchanged. */
    method FetchSnapshot(shell: ShellLog, repoUrl: string, sha: string) returns (r: Result<Snapshot, string>)
      requires Valid()
      modifies shell, workdirService
      ensures Valid()
      ensures |workdirService.made| == |old(workdirService.made)| + 1
      ensures workdirService.made[..|old(workdirService.made)|] == old(workdirService.made)
      ensures var root := workdirService.made[|workdirService.made| - 1];
        root !in old(workdirService.made) &&
        |workdirService.tmpRoot + "/repo-"| <= |root| &&
        root[..|workdirService.tmpRoot + "/repo-"|] == workdirService.tmpRoot + "/repo-" &&
        shell.log == old(shell.log) + Executed(shell.respond, FetchPlan(repoUrl, sha, root)) &&
        r == FetchOutcome(shell.respond, FetchPlan(repoUrl, sha, root), root)
    {
      r := provider.FetchSnapshot(shell, repoUrl, sha, None);
    }
  }

  /** Two fetches of the same commit, as a retry makes them, never share a
      directory. */
  method RetriedFetchUsesNewDirectory(shell: ShellLog, tmpRoot: string, repoUrl: string, sha: string)
    returns (first: Result<Snapshot, string>, second: Result<Snapshot, string>, dirs: seq<string>)
    modifies shell
    ensures |dirs| == 2 && dirs[0] != dirs[1]
    ensures first.Ok? ==> first.value.path == dirs[0]
    ensures second.Ok? ==> second.value.path == dirs[1]
  {
    var activities := new Activities(tmpRoot);
    first := activities.FetchSnapshot(shell, repoUrl, sha);
    second := activities.FetchSnapshot(shell, repoUrl, sha);
    dirs := activities.workdirService.made;
  }
}
