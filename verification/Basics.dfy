/** Values shared by every part of the model: series ids, test outcomes, job results and
    the configuration a snowpatch process runs with. */
module Basics {

  datatype Option<+T> = None | Some(value: T)

  const U64_LIMIT: nat := 0x1_0000_0000_0000_0000

  /** Patchwork series ids are `u64`. */
  type Id = n: nat | n < U64_LIMIT

  type Handle = string

  datatype TestState = Pending | Success | Warning | Fail

  datatype JobState = Waiting | Running | Completed | Failed

  datatype RunnerResult = RunnerResult(
    name: string, state: JobState, outcome: TestState, url: Option<string>, description: Option<string>)

  /** What does not change while the system runs, restarts included.
      `remotes` is the value column of the tree "remotes to push to" in key order;
      `runners` holds the handle of each runner that was started;
      `patches` is the patch list of a series, which Patchwork does not change;
      `lookupsFail` says whether the database can fail to look up a series that was seen. */
  datatype Config = Config(
    workers: nat, remotes: seq<Handle>, runners: seq<Handle>, token: bool, patches: Id -> seq<nat>,
    lookupsFail: bool)

  /** The look-up of a series that was seen never fails. */
  predicate Sighted(c: Config) {
    !c.lookupsFail
  }

  ghost predicate Distinct<T>(s: seq<T>) {
    forall i, j :: 0 <= i < j < |s| ==> s[i] != s[j]
  }

  predicate SpaceFree(s: string) {
    ' ' !in s
  }
}
