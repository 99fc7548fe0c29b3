/** The work-directory allocator `WorkdirService.make(prefix)`, which creates
    a new directory named `<tmp>/<prefix>-<suffix>` (mkdtemp). The model keeps
    the paths it has handed out and guarantees that each new one differs from
    all of them; the suffix here is a run of 'x' longer than every earlier
    path, standing in for mkdtemp's random characters. */
module Workdir {

  class WorkdirService {
    const tmpRoot: string
    var made: seq<string>
    var bound: nat

    ghost predicate Valid()
      reads this
    {
      forall i :: 0 <= i < |made| ==> |made[i]| < bound
    }

    constructor (tmpRoot: string)
      ensures Valid() && this.tmpRoot == tmpRoot && made == []
    {
      this.tmpRoot := tmpRoot;
      made := [];
      bound := 0;
    }

    /** Allocates a directory `<tmp>/<prefix>-...` that was never handed out before. */
    method Make(prefix: string) returns (path: string)
      requires Valid()
      modifies this
      ensures Valid()
      ensures made == old(made) + [path]
      ensures path !in old(made)
      ensures |tmpRoot + "/" + prefix + "-"| <= |path| && path[..|tmpRoot + "/" + prefix + "-"|] == tmpRoot + "/" + prefix + "-"
    {
      var stem := tmpRoot + "/" + prefix + "-";
      path := stem + seq(bound, _ => 'x');
      made := made + [path];
      bound := |path| + 1;
    }
  }
}
