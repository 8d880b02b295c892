// The world outside build/build_docker_images.py: the external commands it
// runs (docker build/tag/run/rmi), recorded as a trace of argument lists, and
// the shared components/.dockerignore file that docker reads while it builds.
// Which call raises and what a probe prints are fixed in advance by the host.

module Docker {
  import opened Values

  /** One external command, with the content of components/.dockerignore at the time it ran. */
  datatype Call = Call(argv: seq<string>, ignoreFile: string)

  /** The "--build-arg KEY=VALUE" pairs of a docker build, in the dict's insertion order. */
  function BuildArgFlags(args: seq<(string, string)>): (flags: seq<string>)
    ensures |flags| == 2 * |args|
  {
    if args == [] then []
    else
      var last := args[|args| - 1];
      BuildArgFlags(args[..|args| - 1]) + ["--build-arg", last.0 + "=" + last.1]
  }

  /** Each pair becomes "--build-arg" followed by "KEY=VALUE", at its own position. */
  lemma {:induction false} BuildArgFlagsPairs(args: seq<(string, string)>)
    ensures var flags := BuildArgFlags(args);
            forall i :: 0 <= i < |args| ==>
              flags[2 * i] == "--build-arg" && flags[2 * i + 1] == args[i].0 + "=" + args[i].1
    decreases |args|
  {
    if args != [] {
      var init := args[..|args| - 1];
      BuildArgFlagsPairs(init);
      var flags := BuildArgFlags(args);
      forall i | 0 <= i < |args|
        ensures flags[2 * i] == "--build-arg" && flags[2 * i + 1] == args[i].0 + "=" + args[i].1
      {
        if i < |init| {
          assert flags[2 * i] == BuildArgFlags(init)[2 * i];
          assert flags[2 * i + 1] == BuildArgFlags(init)[2 * i + 1];
        }
      }
    }
  }

  /** The argument list _docker_build hands to docker: build args, then tag, Dockerfile and the components context. */
  function BuildCommand(dockerfile: string, tag: string, args: seq<(string, string)>): (argv: seq<string>)
  {
    ["docker", "build"] + BuildArgFlags(args) + ["--tag", tag, "-f", dockerfile, "components"]
  }

  /** Reading a docker build command back: its build args, tag and Dockerfile are recoverable. */
  lemma BuildCommandLayout(dockerfile: string, tag: string, args: seq<(string, string)>)
    ensures var argv := BuildCommand(dockerfile, tag, args);
            && |argv| == 2 * |args| + 7
            && argv[..2] == ["docker", "build"]
            && (forall i :: 0 <= i < |args| ==> argv[2 + 2 * i] == "--build-arg" && argv[3 + 2 * i] == args[i].0 + "=" + args[i].1)
            && argv[2 * |args| + 2..] == ["--tag", tag, "-f", dockerfile, "components"]
  {
    var argv := BuildCommand(dockerfile, tag, args);
    var flags := BuildArgFlags(args);
    BuildArgFlagsPairs(args);
    forall i | 0 <= i < |args|
      ensures argv[2 + 2 * i] == "--build-arg" && argv[3 + 2 * i] == args[i].0 + "=" + args[i].1
    {
      assert argv[2 + 2 * i] == flags[2 * i];
      assert argv[3 + 2 * i] == flags[2 * i + 1];
    }
    assert argv[2 * |args| + 2..] == ["--tag", tag, "-f", dockerfile, "components"];
  }

  /** The pipeline stage _check_call runs with check_call; its failure is the one that raises. */
  const SedCommand: seq<string> := ["sed", "-e", "s/^/         /"]

  /** A sequence of commands run while components/.dockerignore holds the same content. */
  function CallsOf(argvs: seq<seq<string>>, ignoreFile: string): (calls: seq<Call>)
    ensures |calls| == |argvs|
  {
    seq(|argvs|, i requires 0 <= i < |argvs| => Call(argvs[i], ignoreFile))
  }

  lemma CallsOfConcat(xs: seq<seq<string>>, ys: seq<seq<string>>, ignoreFile: string)
    ensures CallsOf(xs + ys, ignoreFile) == CallsOf(xs, ignoreFile) + CallsOf(ys, ignoreFile)
  {
  }

  /** What a sequence of build steps sets out to do: its calls in order, then the exception it raises, if any. */
  datatype Plan = Plan(calls: seq<Call>, error: Option<Exception>)

  /** How running a plan went: the calls actually made and how the run ended. */
  datatype Run = Run(made: seq<Call>, outcome: Outcome)

  /** A plan of one call. */
  function Single(c: Call): Plan
  {
    Plan([c], None)
  }

  /** A step that does nothing. */
  const Skip: Plan := Plan([], None)

  /** A step that raises before it makes any call. */
  function Raising(e: Exception): Plan
  {
    Plan([], Some(e))
  }

  /** One step after another: the second is reached only when the first does not raise. */
  function Then(first: Plan, next: Plan): Plan
  {
    if first.error.Some? then first else Plan(first.calls + next.calls, next.error)
  }

  /** A run and then, if it passed, a second run from where it left off. */
  function FollowedBy(first: Run, next: Run): Run
  {
    if first.outcome.Fail? then first else Run(first.made + next.made, next.outcome)
  }

  lemma TraceAppendAssociative(a: seq<Call>, b: seq<Call>, c: seq<Call>)
    ensures a + b + c == a + (b + c)
  {
  }

  lemma ThenAssociative(a: Plan, b: Plan, c: Plan)
    ensures Then(Then(a, b), c) == Then(a, Then(b, c))
  {
    if a.error.None? && b.error.None? {
      assert (a.calls + b.calls) + c.calls == a.calls + (b.calls + c.calls);
    }
  }

  /** The docker daemon, the subprocess layer and the components/.dockerignore file. */
  class Host {
    /** Every external command run so far, in order. */
    var trace: seq<Call>
    /** The content of components/.dockerignore. */
    var dockerignore: string
    /** Positions in the trace of the calls that raise: the sed stage of a _check_call, or a non-zero exit for check_output. */
    const failing: set<nat>
    /** What the call at a position prints on stdout. */
    const stdout: map<nat, string>
    /** The paths that exist on disk. */
    const existing: set<string>

    constructor(dockerignore: string, failing: set<nat>, stdout: map<nat, string>, existing: set<string>)
      ensures this.trace == [] && this.dockerignore == dockerignore
      ensures this.failing == failing && this.stdout == stdout && this.existing == existing
    {
      this.trace := [];
      this.dockerignore := dockerignore;
      this.failing := failing;
      this.stdout := stdout;
      this.existing := existing;
    }

    /** How the call at position k ends for _check_call: docker's own exit status is never looked at. */
    function CallOutcome(k: nat): Outcome
    {
      if k in failing then Fail(CalledProcessError(SedCommand)) else Pass
    }

    /** What subprocess.check_output returns for the call at position k. */
    function Response(k: nat, argv: seq<string>): Result<string>
    {
      if k in failing then Raise(CalledProcessError(argv))
      else Ok(if k in stdout then stdout[k] else "")
    }

    /** _check_call: run a command, piping its output through sed. */
    method CheckCall(argv: seq<string>) returns (o: Outcome)
      modifies this`trace
      ensures trace == old(trace) + [Call(argv, dockerignore)]
      ensures o == CallOutcome(|old(trace)|)
    {
      o := CallOutcome(|trace|);
      trace := trace + [Call(argv, dockerignore)];
    }

    /** The index of the first of n calls made from position k that raises, or n when none does. */
    function FirstFailing(k: nat, n: nat): nat
      decreases n
    {
      if n == 0 then 0 else if CallOutcome(k).Fail? then 0 else 1 + FirstFailing(k + 1, n - 1)
    }

    lemma {:induction false} FirstFailingIsFirst(k: nat, n: nat)
      ensures FirstFailing(k, n) <= n
      ensures FirstFailing(k, n) < n ==> CallOutcome(k + FirstFailing(k, n)).Fail?
      ensures forall j: nat :: k <= j < k + FirstFailing(k, n) ==> CallOutcome(j).Pass?
      decreases n
    {
      if n > 0 && CallOutcome(k).Pass? {
        FirstFailingIsFirst(k + 1, n - 1);
      }
    }

    /** Among a calls and then b more, the first that raises is among the a, or b's first, past the a. */
    lemma {:induction false} FirstFailingSplit(k: nat, a: nat, b: nat)
      ensures FirstFailing(k, a + b) == if FirstFailing(k, a) < a then FirstFailing(k, a) else a + FirstFailing(k + a, b)
      decreases a
    {
      if a > 0 && CallOutcome(k).Pass? {
        FirstFailingSplit(k + 1, a - 1, b);
      }
    }

    /**
     * Running a plan from trace position k: its calls are made in order until one raises;
     * when none does, the run ends with the plan's own exception, if any.
     */
    function Execute(k: nat, plan: Plan): Run
    {
      var j := FirstFailing(k, |plan.calls|);
      if j < |plan.calls| then Run(plan.calls[..j + 1], CallOutcome(k + j))
      else Run(plan.calls, if plan.error.Some? then Fail(plan.error.value) else Pass)
    }

    /** A run passes exactly when the plan raises nothing itself and none of its calls raises. */
    lemma ExecutePasses(k: nat, plan: Plan)
      ensures Execute(k, plan).outcome.Pass? <==> plan.error.None? && forall j: nat :: k <= j < k + |plan.calls| ==> CallOutcome(j).Pass?
    {
      var n := |plan.calls|;
      FirstFailingIsFirst(k, n);
      var j := FirstFailing(k, n);
      if j < n {
        assert k <= k + j < k + n && CallOutcome(k + j).Fail?;
      }
    }

    /**
     * A run makes a prefix of the plan's calls; one that does not make every call stops right after
     * the first call that raised, every call before it having passed, with that call's exception.
     */
    lemma ExecuteStops(k: nat, plan: Plan)
      ensures var r := Execute(k, plan);
              && |r.made| <= |plan.calls| && r.made == plan.calls[..|r.made|]
              && (r.made != plan.calls ==> r.made != [] && r.outcome.Fail? && r.outcome == CallOutcome(k + |r.made| - 1))
              && (forall j: nat :: k <= j < k + |r.made| - 1 ==> CallOutcome(j).Pass?)
    {
      FirstFailingIsFirst(k, |plan.calls|);
    }

    /** Running one step after another is running the first, then, if it passed, the second where the first left off. */
    lemma ExecuteThen(k: nat, first: Plan, next: Plan)
      ensures var r1 := Execute(k, first);
              var r2 := Execute(k + |first.calls|, next);
              Execute(k, Then(first, next)) == if r1.outcome.Fail? then r1 else Run(r1.made + r2.made, r2.outcome)
    {
      var a, b := first.calls, next.calls;
      var r1 := Execute(k, first);
      var r2 := Execute(k + |a|, next);
      var j1 := FirstFailing(k, |a|);
      FirstFailingIsFirst(k, |a|);
      if first.error.None? {
        var both := Then(first, next);
        assert both.calls == a + b;
        FirstFailingSplit(k, |a|, |b|);
        var j := FirstFailing(k, |a| + |b|);
        if j1 < |a| {
          assert (a + b)[..j + 1] == a[..j + 1];
        } else {
          var j2 := FirstFailing(k + |a|, |b|);
          assert j == |a| + j2;
          if j2 < |b| {
            assert (a + b)[..j + 1] == a + b[..j2 + 1];
            assert k + j == k + |a| + j2;
          }
        }
      } else {
        ExecutePasses(k, first);
      }
    }

    /** subprocess.check_output of a command. */
    method CheckOutput(argv: seq<string>) returns (r: Result<string>)
      modifies this`trace
      ensures trace == old(trace) + [Call(argv, dockerignore)]
      ensures r == Response(|old(trace)|, argv)
    {
      r := Response(|trace|, argv);
      trace := trace + [Call(argv, dockerignore)];
    }

    /** _docker_build: assemble the docker build command and run it. */
    method DockerBuild(dockerfile: string, tag: string, args: seq<(string, string)>) returns (o: Outcome)
      modifies this`trace
      ensures trace == old(trace) + [Call(BuildCommand(dockerfile, tag, args), dockerignore)]
      ensures o == CallOutcome(|old(trace)|)
    {
      var cmd := ["docker", "build"];
      var i := 0;
      while i < |args|
        invariant 0 <= i <= |args|
        invariant cmd == ["docker", "build"] + BuildArgFlags(args[..i])
      {
        assert args[..i + 1][..i] == args[..i];
        cmd := cmd + ["--build-arg", args[i].0 + "=" + args[i].1];
        i := i + 1;
      }
      assert args[..i] == args;
      cmd := cmd + ["--tag", tag, "-f", dockerfile, "components"];
      o := CheckCall(cmd);
    }
  }

  /** The trace went from t0 to t1 by running the plan on the host, and the run ended with o. */
  predicate Ran(host: Host, t0: seq<Call>, t1: seq<Call>, o: Outcome, plan: Plan)
  {
    var r := host.Execute(|t0|, plan);
    t1 == t0 + r.made && o == r.outcome
  }

  /** A run that started at position k made the calls and ended as its plan executed from k does. */
  lemma RanFrom(host: Host, t0: seq<Call>, t1: seq<Call>, o: Outcome, plan: Plan, k: nat)
    requires Ran(host, t0, t1, o, plan) && k == |t0|
    ensures t1 == t0 + host.Execute(k, plan).made && o == host.Execute(k, plan).outcome
  {
  }

  /** A step that passed followed by the next step is a run of the two in sequence. */
  lemma {:induction false} RanThen(host: Host, t0: seq<Call>, t1: seq<Call>, t2: seq<Call>, o1: Outcome, o2: Outcome, first: Plan, next: Plan)
    requires Ran(host, t0, t1, o1, first) && o1.Pass? && Ran(host, t1, t2, o2, next)
    ensures Ran(host, t0, t2, o2, Then(first, next))
  {
    host.ExecuteStops(|t0|, first);
    host.ExecuteThen(|t0|, first, next);
  }

  /** A step that raised ends the sequence: the next step never runs. */
  lemma {:induction false} RanStops(host: Host, t0: seq<Call>, t1: seq<Call>, o1: Outcome, first: Plan, next: Plan)
    requires Ran(host, t0, t1, o1, first) && o1.Fail?
    ensures Ran(host, t0, t1, o1, Then(first, next))
  {
    host.ExecuteThen(|t0|, first, next);
  }
}
