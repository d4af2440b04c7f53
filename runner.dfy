/** The run itself: check-then-install for each planned tool, then each
    planned configuration step, stopping at the first error. */
module Runner {
  import opened Base
  import opened Platform
  import opened Planning
  import opened Installation
  import Binaries

  /** What a run does, as far as the model can see it. An `Installing`
      event is an install attempt, whether it succeeds or not. */
  datatype Event =
    | PrintedUsage
    | Checked(tool: Tool)
    | Installing(tool: Tool)
    | Configured(step: ConfigStep)

  /** The events of a piece of the run and the error it ends with, if any. */
  datatype Outcome = Outcome(events: seq<Event>, err: Option<Error>)

  function Prefixed(events: seq<Event>, o: Outcome): Outcome {
    Outcome(events + o.events, o.err)
  }

  /** Runs the steps in order, returning at the first step that fails. */
  function RunAll<S>(steps: seq<S>, run: S -> Outcome): Outcome {
    if steps == [] then Outcome([], None)
    else
      var first := run(steps[0]);
      if first.err.Some? then first
      else Prefixed(first.events, RunAll(steps[1..], run))
  }

  /** Every step's events, one after the other. */
  function Trace<S>(steps: seq<S>, run: S -> Outcome): seq<Event> {
    if steps == [] then [] else run(steps[0]).events + Trace(steps[1..], run)
  }

  predicate NoneFails<S>(steps: seq<S>, run: S -> Outcome) {
    forall i :: 0 <= i < |steps| ==> run(steps[i]).err.None?
  }

  lemma NoneFailsCons<S>(steps: seq<S>, run: S -> Outcome)
    requires steps != []
    ensures NoneFails(steps, run) <==> run(steps[0]).err.None? && NoneFails(steps[1..], run)
  {
    if run(steps[0]).err.None? && NoneFails(steps[1..], run) {
      forall i | 0 <= i < |steps| ensures run(steps[i]).err.None? {
        if i > 0 { assert steps[i] == steps[1..][i - 1]; }
      }
    }
  }

  /** The run ends without error exactly when no step fails, and then every
      step has run. */
  lemma {:induction false} RunAllSucceeds<S>(steps: seq<S>, run: S -> Outcome)
    ensures RunAll(steps, run).err.None? <==> NoneFails(steps, run)
    ensures NoneFails(steps, run) ==> RunAll(steps, run) == Outcome(Trace(steps, run), None)
  {
    if steps != [] {
      NoneFailsCons(steps, run);
      RunAllSucceeds(steps[1..], run);
    }
  }

  /** The first failing step ends the run with its error: the steps before
      it ran and succeeded, it ran, and no later step ran. */
  lemma {:induction false} RunAllStopsAt<S>(steps: seq<S>, run: S -> Outcome, k: nat)
    requires k < |steps| && run(steps[k]).err.Some? && NoneFails(steps[..k], run)
    ensures RunAll(steps, run) == Outcome(Trace(steps[..k + 1], run), run(steps[k]).err)
  {
    if k == 0 {
      assert steps[..1][0] == steps[0];
      assert steps[..1][1..] == [];
    } else {
      NoneFailsCons(steps[..k], run);
      assert steps[..k][0] == steps[0];
      assert steps[..k][1..] == steps[1..][..k - 1];
      RunAllStopsAt(steps[1..], run, k - 1);
      assert steps[..k + 1][0] == steps[0];
      assert steps[..k + 1][1..] == steps[1..][..k];
    }
  }

  /** An event of the run is an event of one of its steps. */
  lemma {:induction false} RunAllEventSource<S>(steps: seq<S>, run: S -> Outcome, e: Event) returns (s: S)
    requires e in RunAll(steps, run).events
    ensures s in steps && e in run(s).events
  {
    var first := run(steps[0]);
    if first.err.Some? || e in first.events {
      s := steps[0];
    } else {
      s := RunAllEventSource(steps[1..], run, e);
    }
  }

  /** What the install step gets back for a tool: for fzf, bat and eza the
      binary installer's own refusals come first, and otherwise whatever the
      commands it runs report. */
  function InstallFailure(tool: Tool, env: Env, runFailure: Tool -> Option<Error>): (r: Option<Error>)
    ensures tool in {Fzf, Bat, Eza} && Binaries.BinaryInstallPlan(tool, env).Err? ==>
      r == Some(Binaries.BinaryInstallPlan(tool, env).error)
    ensures r != runFailure(tool) ==> tool in {Fzf, Bat, Eza} && Binaries.BinaryInstallPlan(tool, env).Err?
  {
    if tool in {Fzf, Bat, Eza} && Binaries.BinaryInstallPlan(tool, env).Err? then
      Some(Binaries.BinaryInstallPlan(tool, env).error)
    else runFailure(tool)
  }

  /** `checkAndInstall`: the check always runs; the install runs only when the
      check fails, and the step's error is the install's. */
  function CheckAndInstall(tool: Tool, env: Env, runFailure: Tool -> Option<Error>): (o: Outcome)
    ensures |o.events| > 0 && o.events[0] == Checked(tool)
    ensures Installing(tool) in o.events <==> !CheckPasses(tool, env)
    ensures o.err.Some? ==> !CheckPasses(tool, env)
    ensures !CheckPasses(tool, env) ==>
      o.err == InstallResult(tool, InstallRouteFor(tool, env), InstallFailure(tool, env, runFailure))
    ensures forall e :: e in o.events ==> e == Checked(tool) || e == Installing(tool)
  {
    if CheckPasses(tool, env) then Outcome([Checked(tool)], None)
    else
      var route := InstallRouteFor(tool, env);
      Outcome([Checked(tool), Installing(tool)], InstallResult(tool, route, InstallFailure(tool, env, runFailure)))
  }

  /** `macosCustomize`'s result: the OS error on an unsupported OS, a refusal
      on Linux, and success on Darwin, where the brew calls' own errors are
      ignored. */
  function MacosResult(goos: string): (r: Option<Error>)
    ensures r.None? <==> goos == "darwin"
    ensures goos == "linux" ==> r == Some(NotMacos)
    ensures goos != "linux" && goos != "darwin" ==> r == Some(ErrUnsupportedOS)
  {
    match ConditionOS(goos)
    case Err(e) => Some(e)
    case Ok(Linux) => Some(NotMacos)
    case Ok(Darwin) => None
  }

  /** A configuration step: the macOS step decides for itself, the others
      report what their file writing and commands report. */
  function ConfigureStep(step: ConfigStep, goos: string, configure: ConfigStep -> Option<Error>): Outcome {
    Outcome([Configured(step)], if step == MacosConfig then MacosResult(goos) else configure(step))
  }

  function ToolRun(env: Env, runFailure: Tool -> Option<Error>): Tool -> Outcome {
    t => CheckAndInstall(t, env, runFailure)
  }

  function StepRun(goos: string, configure: ConfigStep -> Option<Error>): ConfigStep -> Outcome {
    c => ConfigureStep(c, goos, configure)
  }

  /** The whole run of `_main`: usage only when nothing is selected,
      otherwise the tools, and the configuration steps only if every tool
      succeeded. */
  function BootstrapSpec(f: Flags, env: Env, runFailure: Tool -> Option<Error>,
                         configure: ConfigStep -> Option<Error>): Outcome {
    if !Enabled(f) then Outcome([PrintedUsage], None)
    else
      var t := RunAll(PlannedTools(f), ToolRun(env, runFailure));
      if t.err.Some? then t
      else Prefixed(t.events, RunAll(PlannedConfigs(f), StepRun(env.goos, configure)))
  }

  /** The tool loop of `_main`: check-then-install each tool in turn,
      returning the first error. */
  method RunTools(tools: seq<Tool>, env: Env, runFailure: Tool -> Option<Error>) returns (o: Outcome)
    ensures o == RunAll(tools, ToolRun(env, runFailure))
  {
    ghost var run := ToolRun(env, runFailure);
    var trace := [];
    var i := 0;
    while i < |tools|
      invariant 0 <= i <= |tools|
      invariant RunAll(tools, run) == Prefixed(trace, RunAll(tools[i..], run))
    {
      assert tools[i..][0] == tools[i];
      assert tools[i..][1..] == tools[i + 1..];
      var step := CheckAndInstall(tools[i], env, runFailure);
      if step.err.Some? {
        return Outcome(trace + step.events, step.err);
      }
      assert (trace + step.events) + RunAll(tools[i + 1..], run).events ==
        trace + (step.events + RunAll(tools[i + 1..], run).events);
      trace := trace + step.events;
      i := i + 1;
    }
    assert tools[i..] == [];
    assert trace + [] == trace;
    return Outcome(trace, None);
  }

  /** The configuration loop of `_main`: each step in turn, returning the
      first error. */
  method RunConfigs(configs: seq<ConfigStep>, goos: string, configure: ConfigStep -> Option<Error>) returns (o: Outcome)
    ensures o == RunAll(configs, StepRun(goos, configure))
  {
    ghost var run := StepRun(goos, configure);
    var trace := [];
    var j := 0;
    while j < |configs|
      invariant 0 <= j <= |configs|
      invariant RunAll(configs, run) == Prefixed(trace, RunAll(configs[j..], run))
    {
      assert configs[j..][0] == configs[j];
      assert configs[j..][1..] == configs[j + 1..];
      var step := ConfigureStep(configs[j], goos, configure);
      if step.err.Some? {
        return Outcome(trace + step.events, step.err);
      }
      assert (trace + step.events) + RunAll(configs[j + 1..], run).events ==
        trace + (step.events + RunAll(configs[j + 1..], run).events);
      trace := trace + step.events;
      j := j + 1;
    }
    assert configs[j..] == [];
    assert trace + [] == trace;
    return Outcome(trace, None);
  }

  /** `_main` after flag parsing: plan, then the two fail-fast loops. */
  method Bootstrap(f: Flags, env: Env, runFailure: Tool -> Option<Error>,
                   configure: ConfigStep -> Option<Error>) returns (err: Option<Error>, trace: seq<Event>)
    ensures Outcome(trace, err) == BootstrapSpec(f, env, runFailure, configure)
  {
    var plan := PlanRun(f);
    if plan.Usage? {
      return None, [PrintedUsage];
    }
    var tools := RunTools(plan.tools, env, runFailure);
    if tools.err.Some? {
      return tools.err, tools.events;
    }
    var configs := RunConfigs(plan.configs, env.goos, configure);
    return configs.err, tools.events + configs.events;
  }

  /** The events of any step are events of the whole trace. */
  lemma {:induction false} TraceContains<S>(steps: seq<S>, run: S -> Outcome, i: nat, e: Event)
    requires i < |steps| && e in run(steps[i]).events
    ensures e in Trace(steps, run)
  {
    if i > 0 {
      assert steps[i] == steps[1..][i - 1];
      TraceContains(steps[1..], run, i - 1, e);
    }
  }

  /** An event of the tool loop is a check or an install attempt of a tool
      the loop was given, and an install attempt means the check failed. */
  lemma ToolEvents(tools: seq<Tool>, env: Env, runFailure: Tool -> Option<Error>, e: Event)
    requires e in RunAll(tools, ToolRun(env, runFailure)).events
    ensures e.Checked? || e.Installing?
    ensures e.tool in tools
    ensures e.Installing? ==> !CheckPasses(e.tool, env)
  {
    var t := RunAllEventSource(tools, ToolRun(env, runFailure), e);
    assert e in CheckAndInstall(t, env, runFailure).events;
  }

  /** An event of the configuration loop is a step the loop was given. */
  lemma StepEvents(configs: seq<ConfigStep>, goos: string, configure: ConfigStep -> Option<Error>, e: Event)
    requires e in RunAll(configs, StepRun(goos, configure)).events
    ensures e.Configured? && e.step in configs
  {
    var c := RunAllEventSource(configs, StepRun(goos, configure), e);
    assert e in ConfigureStep(c, goos, configure).events;
  }

  /** With nothing selected the run prints usage and nothing else; with
      something selected it never prints usage. */
  lemma UsageExactlyWhenIdle(f: Flags, env: Env, runFailure: Tool -> Option<Error>,
                             configure: ConfigStep -> Option<Error>)
    ensures !Enabled(f) ==> BootstrapSpec(f, env, runFailure, configure) == Outcome([PrintedUsage], None)
    ensures Enabled(f) ==> PrintedUsage !in BootstrapSpec(f, env, runFailure, configure).events
  {
    if Enabled(f) && PrintedUsage in BootstrapSpec(f, env, runFailure, configure).events {
      var t := RunAll(PlannedTools(f), ToolRun(env, runFailure));
      if PrintedUsage in t.events {
        ToolEvents(PlannedTools(f), env, runFailure, PrintedUsage);
      } else {
        StepEvents(PlannedConfigs(f), env.goos, configure, PrintedUsage);
      }
    }
  }

  /** Only selected tools are checked, and a tool is installed only when
      its check failed. */
  lemma OnlySelectedToolsTouched(f: Flags, env: Env, runFailure: Tool -> Option<Error>,
                                 configure: ConfigStep -> Option<Error>, t: Tool)
    ensures Checked(t) in BootstrapSpec(f, env, runFailure, configure).events ==> ToolSelected(f, t)
    ensures Installing(t) in BootstrapSpec(f, env, runFailure, configure).events ==>
      ToolSelected(f, t) && !CheckPasses(t, env)
  {
    var o := BootstrapSpec(f, env, runFailure, configure);
    var tools := RunAll(PlannedTools(f), ToolRun(env, runFailure));
    ToolPlannedIff(f, t);
    forall e | e in [Checked(t), Installing(t)] && e in o.events
      ensures t in PlannedTools(f) && (e.Installing? ==> !CheckPasses(t, env))
    {
      if e in tools.events {
        ToolEvents(PlannedTools(f), env, runFailure, e);
      } else {
        StepEvents(PlannedConfigs(f), env.goos, configure, e);
      }
    }
  }

  /** A configuration step runs only if it was selected and every planned
      tool was checked (and, where needed, installed) without error. */
  lemma ConfigOnlyAfterTools(f: Flags, env: Env, runFailure: Tool -> Option<Error>,
                             configure: ConfigStep -> Option<Error>, c: ConfigStep)
    requires Configured(c) in BootstrapSpec(f, env, runFailure, configure).events
    ensures StepSelected(f, c)
    ensures NoneFails(PlannedTools(f), ToolRun(env, runFailure))
  {
    var tools := RunAll(PlannedTools(f), ToolRun(env, runFailure));
    RunAllSucceeds(PlannedTools(f), ToolRun(env, runFailure));
    StepPlannedIff(f, c);
    if Configured(c) in tools.events {
      ToolEvents(PlannedTools(f), env, runFailure, Configured(c));
    } else {
      StepEvents(PlannedConfigs(f), env.goos, configure, Configured(c));
    }
  }

  /** The first tool that fails ends the run with its error: the tools
      before it and it have been handled, and no configuration step runs. */
  lemma ToolFailureEndsRun(f: Flags, env: Env, runFailure: Tool -> Option<Error>,
                           configure: ConfigStep -> Option<Error>, k: nat)
    requires Enabled(f) && k < |PlannedTools(f)|
    requires CheckAndInstall(PlannedTools(f)[k], env, runFailure).err.Some?
    requires NoneFails(PlannedTools(f)[..k], ToolRun(env, runFailure))
    ensures BootstrapSpec(f, env, runFailure, configure) ==
      Outcome(Trace(PlannedTools(f)[..k + 1], ToolRun(env, runFailure)),
              CheckAndInstall(PlannedTools(f)[k], env, runFailure).err)
  {
    RunAllStopsAt(PlannedTools(f), ToolRun(env, runFailure), k);
  }

  /** A selected run succeeds exactly when every tool step and every
      configuration step does, and then all of them have run, tools first. */
  lemma SuccessfulRun(f: Flags, env: Env, runFailure: Tool -> Option<Error>,
                      configure: ConfigStep -> Option<Error>)
    requires Enabled(f)
    ensures BootstrapSpec(f, env, runFailure, configure).err.None? <==>
      NoneFails(PlannedTools(f), ToolRun(env, runFailure)) &&
      NoneFails(PlannedConfigs(f), StepRun(env.goos, configure))
    ensures BootstrapSpec(f, env, runFailure, configure).err.None? ==>
      BootstrapSpec(f, env, runFailure, configure).events ==
        Trace(PlannedTools(f), ToolRun(env, runFailure)) + Trace(PlannedConfigs(f), StepRun(env.goos, configure))
  {
    RunAllSucceeds(PlannedTools(f), ToolRun(env, runFailure));
    RunAllSucceeds(PlannedConfigs(f), StepRun(env.goos, configure));
  }

  /** In a successful run every selected tool has been checked. */
  lemma SuccessfulRunChecksAll(f: Flags, env: Env, runFailure: Tool -> Option<Error>,
                               configure: ConfigStep -> Option<Error>, t: Tool)
    requires Enabled(f) && BootstrapSpec(f, env, runFailure, configure).err.None?
    requires ToolSelected(f, t)
    ensures Checked(t) in BootstrapSpec(f, env, runFailure, configure).events
  {
    SuccessfulRun(f, env, runFailure, configure);
    ToolPlannedIff(f, t);
    var tools := PlannedTools(f);
    var i :| 0 <= i < |tools| && tools[i] == t;
    TraceContains(tools, ToolRun(env, runFailure), i, Checked(t));
  }

  /** `-all` on Linux can never succeed: when every other step succeeds the
      run still ends with the macOS step's refusal. */
  lemma AllOnLinuxEndsWithMacosRefusal(f: Flags, env: Env, runFailure: Tool -> Option<Error>,
                                       configure: ConfigStep -> Option<Error>)
    requires f.all && env.goos == "linux"
    requires NoneFails(PlannedTools(f), ToolRun(env, runFailure))
    requires forall c :: configure(c).None?
    ensures BootstrapSpec(f, env, runFailure, configure).err == Some(NotMacos)
  {
    RunAllSucceeds(PlannedTools(f), ToolRun(env, runFailure));
    PlannedConfigsShape(f);
    var configs := PlannedConfigs(f);
    assert configs == [GitConfig, VimConfig, ZshConfig, MacosConfig];
    assert configs[..3] == [GitConfig, VimConfig, ZshConfig];
    RunAllStopsAt(configs, StepRun(env.goos, configure), 3);
  }
}
