/**
 * What one `run_docker_cmd` does, as a function of the `_build` memo and the
 * engine's answers: the build it may trigger, the requests it makes in order,
 * the memo it leaves and the result it returns; and what follows for a series
 * of runs.
 */
module Protocol {
  import opened Wrappers
  import opened Text
  import opened Engine

  /** The builder's fixed settings a run depends on. */
  datatype Config = Config(tag: string, dockerfile: string, uid: nat)

  /** `dict(status=..., stdout=..., stderr=...)`. */
  datatype RunResult = RunResult(status: int, stdout: string, stderr: string)

  /** Python truthiness of `_build`: neither `None` nor the empty log. */
  predicate Built(memo: Option<string>) {
    memo.Some? && memo.value != ""
  }

  /** The build request `_build_container` makes. */
  function BuildCall(cfg: Config): Call {
    Call.Build(cfg.dockerfile, true, cfg.tag)
  }

  /** The requests that run one command in a fresh container, in order. */
  function RunCalls(cfg: Config, cmd: string, binds: Option<Binds>, id: string): seq<Call> {
    [Call.CreateContainer(cfg.tag, cfg.uid, cmd, HostConfig(binds, "host")),
     Call.Start(id), Call.Wait(id), Call.Logs(id, true, false), Call.Logs(id, false, true)]
  }

  /** What one run leaves behind: the memo, the requests it made, its result. */
  datatype Outcome = Outcome(memo: Option<string>, calls: seq<Call>, result: RunResult)

  /** One `run_docker_cmd(cmd, binds)` against an engine that answers `r`. */
  function Run(memo: Option<string>, cfg: Config, r: Replies, cmd: string, binds: Option<Binds>): (o: Outcome)
    ensures o.result == RunResult(r.status, r.stdoutLog, r.stderrLog)
    ensures Built(memo) ==> o.memo == memo && o.calls == RunCalls(cfg, cmd, binds, r.containerId)
    ensures !Built(memo) ==> o.memo == Some(Concat(r.buildLog))
                             && o.calls == [BuildCall(cfg)] + RunCalls(cfg, cmd, binds, r.containerId)
  {
    var build := if Built(memo) then [] else [BuildCall(cfg)];
    var memo' := if Built(memo) then memo else Some(Concat(r.buildLog));
    Outcome(memo', build + RunCalls(cfg, cmd, binds, r.containerId),
            RunResult(r.status, LogText(r, true, false), LogText(r, false, true)))
  }

  /** One request of a series: the engine's answers and the command with its binds. */
  datatype Request = Request(replies: Replies, cmd: string, binds: Option<Binds>)

  /** The memo and the trace after running the requests one after another. */
  function RunAll(memo: Option<string>, cfg: Config, reqs: seq<Request>): (Option<string>, seq<Call>)
    decreases |reqs|
  {
    if reqs == [] then (memo, [])
    else
      var o := Run(memo, cfg, reqs[0].replies, reqs[0].cmd, reqs[0].binds);
      var rest := RunAll(o.memo, cfg, reqs[1..]);
      (rest.0, o.calls + rest.1)
  }

  /** Number of image builds in a trace. */
  function CountBuilds(calls: seq<Call>): nat {
    if calls == [] then 0 else (if calls[0].Build? then 1 else 0) + CountBuilds(calls[1..])
  }

  lemma {:induction false} CountBuildsAppend(a: seq<Call>, b: seq<Call>)
    ensures CountBuilds(a + b) == CountBuilds(a) + CountBuilds(b)
  {
    if a == [] {
      assert a + b == b;
    } else {
      assert (a + b)[0] == a[0] && (a + b)[1..] == a[1..] + b;
      CountBuildsAppend(a[1..], b);
    }
  }

  predicate NoBuilds(calls: seq<Call>) {
    forall k :: 0 <= k < |calls| ==> !calls[k].Build?
  }

  /** A trace without builds counts none and loses nothing when builds are dropped. */
  lemma {:induction false} NoBuildsTrace(calls: seq<Call>)
    requires NoBuilds(calls)
    ensures CountBuilds(calls) == 0 && WithoutBuilds(calls) == calls
  {
    if calls != [] {
      assert !calls[0].Build?;
      NoBuildsTrace(calls[1..]);
      assert [calls[0]] + calls[1..] == calls;
    }
  }

  lemma RunCallsBuildNothing(cfg: Config, cmd: string, binds: Option<Binds>, id: string)
    ensures CountBuilds(RunCalls(cfg, cmd, binds, id)) == 0
    ensures WithoutBuilds(RunCalls(cfg, cmd, binds, id)) == RunCalls(cfg, cmd, binds, id)
  {
    NoBuildsTrace(RunCalls(cfg, cmd, binds, id));
  }

  /** The number of runs up to and including the first whose build log is not empty. */
  function RunsUntilLogged(reqs: seq<Request>): nat {
    if reqs == [] then 0
    else if Concat(reqs[0].replies.buildLog) != "" then 1
    else 1 + RunsUntilLogged(reqs[1..])
  }

  /**
   * Builds happen exactly until a build leaves a non-empty log: none when the
   * memo is already set, otherwise one per run up to and including the first
   * run whose engine returns a non-empty log.
   */
  lemma {:induction false} BuildsUntilLogged(memo: Option<string>, cfg: Config, reqs: seq<Request>)
    ensures CountBuilds(RunAll(memo, cfg, reqs).1) == if Built(memo) then 0 else RunsUntilLogged(reqs)
    decreases |reqs|
  {
    if reqs != [] {
      var r := reqs[0];
      var o := Run(memo, cfg, r.replies, r.cmd, r.binds);
      RunCallsBuildNothing(cfg, r.cmd, r.binds, r.replies.containerId);
      if !Built(memo) {
        CountBuildsAppend([BuildCall(cfg)], RunCalls(cfg, r.cmd, r.binds, r.replies.containerId));
      }
      CountBuildsAppend(o.calls, RunAll(o.memo, cfg, reqs[1..]).1);
      BuildsUntilLogged(o.memo, cfg, reqs[1..]);
    }
  }

  /** Once a run has stored a non-empty log, no later run builds again, however many follow. */
  lemma AtMostOneBuild(memo: Option<string>, cfg: Config, reqs: seq<Request>)
    requires reqs != [] && Concat(reqs[0].replies.buildLog) != ""
    ensures CountBuilds(RunAll(memo, cfg, reqs).1) == if Built(memo) then 0 else 1
  {
    BuildsUntilLogged(memo, cfg, reqs);
  }

  /** A set memo is never cleared or replaced. */
  lemma {:induction false} MemoKept(memo: Option<string>, cfg: Config, reqs: seq<Request>)
    requires Built(memo)
    ensures RunAll(memo, cfg, reqs).0 == memo
    decreases |reqs|
  {
    if reqs != [] {
      MemoKept(memo, cfg, reqs[1..]);
    }
  }

  /** The trace without its builds. */
  function WithoutBuilds(calls: seq<Call>): seq<Call> {
    if calls == [] then [] else (if calls[0].Build? then [] else [calls[0]]) + WithoutBuilds(calls[1..])
  }

  lemma {:induction false} WithoutBuildsAppend(a: seq<Call>, b: seq<Call>)
    ensures WithoutBuilds(a + b) == WithoutBuilds(a) + WithoutBuilds(b)
  {
    if a == [] {
      assert a + b == b;
    } else {
      assert (a + b)[0] == a[0] && (a + b)[1..] == a[1..] + b;
      WithoutBuildsAppend(a[1..], b);
    }
  }

  /** The container requests of every run in turn, whatever the memo. */
  function ExpectedRuns(cfg: Config, reqs: seq<Request>): seq<Call> {
    if reqs == [] then []
    else RunCalls(cfg, reqs[0].cmd, reqs[0].binds, reqs[0].replies.containerId) + ExpectedRuns(cfg, reqs[1..])
  }

  /**
   * Apart from the builds, the trace is, for every run in turn, a container
   * created from the tag as the user's uid with host networking, then its
   * start, wait, stdout fetch and stderr fetch.
   */
  lemma {:induction false} ContainerRequests(memo: Option<string>, cfg: Config, reqs: seq<Request>)
    ensures WithoutBuilds(RunAll(memo, cfg, reqs).1) == ExpectedRuns(cfg, reqs)
    decreases |reqs|
  {
    if reqs != [] {
      var r := reqs[0];
      var o := Run(memo, cfg, r.replies, r.cmd, r.binds);
      var runs := RunCalls(cfg, r.cmd, r.binds, r.replies.containerId);
      RunCallsBuildNothing(cfg, r.cmd, r.binds, r.replies.containerId);
      if !Built(memo) {
        WithoutBuildsAppend([BuildCall(cfg)], runs);
        assert WithoutBuilds([BuildCall(cfg)]) == [];
      }
      WithoutBuildsAppend(o.calls, RunAll(o.memo, cfg, reqs[1..]).1);
      ContainerRequests(o.memo, cfg, reqs[1..]);
    }
  }
}
