/** Run planning: from the selected flags, whether to run at all, which tools
    to check and install, and which configuration steps to apply, in order. */
module Planning {
  import opened Base

  /** The configuration steps, one per configuring function of the program. */
  datatype ConfigStep = GitConfig | VimConfig | ZshConfig | MacosConfig

  /** The plan: print usage and stop, or run the tools and then the steps. */
  datatype Plan = Usage | Run(tools: seq<Tool>, configs: seq<ConfigStep>)

  /** Some flag that selects work is set; dry-run and force select nothing. */
  predicate Enabled(f: Flags) {
    f.vim || f.git || f.zsh || f.macos || f.all || f.gvm || f.java || f.rust
  }

  /** The flags that bring in the shell group (zsh and its companions). */
  predicate ShellGroup(f: Flags) {
    f.all || f.zsh || f.gvm || f.java || f.rust
  }

  /** The shell group, in the order the program appends it. */
  const ShellTools: seq<Tool> := [Zsh, OhMyZsh, TheFuck, Bat, Fzf, Eza]

  /** Every tool the program can plan, in plan order. */
  const ToolOrder: seq<Tool> :=
    [Git, Vim] + ShellTools + [Gvm, Sdkman, Rustup]

  const ConfigOrder: seq<ConfigStep> := [GitConfig, VimConfig, ZshConfig, MacosConfig]

  /** When a tool is planned, stated per tool. */
  predicate ToolSelected(f: Flags, tool: Tool) {
    match tool
    case Git => f.all || f.git
    case Vim => f.all || f.vim
    case Gvm => f.all || f.gvm
    case Sdkman => f.all || f.java
    case Rustup => f.all || f.rust
    case _ => ShellGroup(f)
  }

  /** When a configuration step is planned. */
  predicate StepSelected(f: Flags, step: ConfigStep) {
    match step
    case GitConfig => f.all || f.git
    case VimConfig => f.all || f.vim
    case ZshConfig => ShellGroup(f)
    case MacosConfig => f.all || f.macos
  }

  /** The elements of `s` that satisfy `p`, in their order in `s`. */
  function Filter<T>(s: seq<T>, p: T -> bool): seq<T> {
    if s == [] then []
    else (if p(s[0]) then [s[0]] else []) + Filter(s[1..], p)
  }

  lemma {:induction false} FilterAppend<T>(a: seq<T>, b: seq<T>, p: T -> bool)
    ensures Filter(a + b, p) == Filter(a, p) + Filter(b, p)
  {
    if a != [] {
      assert (a + b)[0] == a[0];
      assert (a + b)[1..] == a[1..] + b;
      FilterAppend(a[1..], b, p);
      var h := if p(a[0]) then [a[0]] else [];
      assert Filter(a, p) == h + Filter(a[1..], p);
      assert Filter(a + b, p) == h + Filter(a[1..] + b, p);
      assert h + (Filter(a[1..], p) + Filter(b, p)) == (h + Filter(a[1..], p)) + Filter(b, p);
    } else {
      assert a + b == b;
    }
  }

  lemma {:induction false} FilterMembership<T>(s: seq<T>, p: T -> bool, x: T)
    ensures x in Filter(s, p) <==> x in s && p(x)
  {
    if s != [] {
      FilterMembership(s[1..], p, x);
      assert x in s <==> x == s[0] || x in s[1..];
    }
  }

  /** An element that satisfies `p` is in the filter, at a position no
      later than its own. */
  lemma {:induction false} FilterIndexOf<T>(s: seq<T>, p: T -> bool, j: nat) returns (l: nat)
    requires j < |s| && p(s[j])
    ensures l <= j && l < |Filter(s, p)| && Filter(s, p)[l] == s[j]
  {
    var h := if p(s[0]) then [s[0]] else [];
    assert Filter(s, p) == h + Filter(s[1..], p);
    if j == 0 {
      l := 0;
    } else {
      assert s[1..][j - 1] == s[j];
      var l' := FilterIndexOf(s[1..], p, j - 1);
      l := |h| + l';
      assert Filter(s, p)[l] == Filter(s[1..], p)[l'];
    }
  }

  /** `Filter` keeps the order of `s`: two kept elements appear in the
      result in the order they have in `s`. */
  lemma {:induction false} FilterKeepsOrder<T>(s: seq<T>, p: T -> bool, i: nat, j: nat) returns (k: nat, l: nat)
    requires i < j < |s| && p(s[i]) && p(s[j])
    ensures k < l < |Filter(s, p)| && Filter(s, p)[k] == s[i] && Filter(s, p)[l] == s[j]
  {
    var h := if p(s[0]) then [s[0]] else [];
    var tail := Filter(s[1..], p);
    assert Filter(s, p) == h + tail;
    assert s[1..][j - 1] == s[j];
    if i == 0 {
      var l' := FilterIndexOf(s[1..], p, j - 1);
      k, l := 0, 1 + l';
      assert Filter(s, p)[l] == tail[l'];
    } else {
      assert s[1..][i - 1] == s[i];
      var k', l' := FilterKeepsOrder(s[1..], p, i - 1, j - 1);
      k, l := |h| + k', |h| + l';
      assert Filter(s, p)[k] == tail[k'];
      assert Filter(s, p)[l] == tail[l'];
    }
  }

  /** A filter whose predicate is the same everywhere keeps all or nothing. */
  lemma {:induction false} FilterUniform<T>(s: seq<T>, p: T -> bool, b: bool)
    requires forall k :: 0 <= k < |s| ==> p(s[k]) == b
    ensures Filter(s, p) == if b then s else []
  {
    if s != [] {
      FilterUniform(s[1..], p, b);
    }
  }

  lemma FilterCons<T>(x: T, s: seq<T>, p: T -> bool)
    ensures Filter([x] + s, p) == Pick(p(x), x) + Filter(s, p)
  {
    assert ([x] + s)[1..] == s;
  }

  function Pick<T>(b: bool, x: T): seq<T> {
    if b then [x] else []
  }

  function ToolRule(f: Flags): Tool -> bool {
    t => ToolSelected(f, t)
  }

  function StepRule(f: Flags): ConfigStep -> bool {
    c => StepSelected(f, c)
  }

  function PlannedTools(f: Flags): seq<Tool> {
    Filter(ToolOrder, ToolRule(f))
  }

  function PlannedConfigs(f: Flags): seq<ConfigStep> {
    Filter(ConfigOrder, StepRule(f))
  }

  /** The plan: usage without a selecting flag, otherwise the tool list and
      the step list, each built by successive appends. */
  method PlanRun(f: Flags) returns (plan: Plan)
    ensures plan.Usage? <==> !Enabled(f)
    ensures plan.Run? ==> plan.tools == PlannedTools(f) && plan.configs == PlannedConfigs(f)
  {
    if !Enabled(f) {
      return Usage;
    }
    var tools := PlanTools(f);
    var configs := PlanConfigs(f);
    plan := Run(tools, configs);
  }

  /** The tool list, appended group by group as the program does. */
  method PlanTools(f: Flags) returns (tools: seq<Tool>)
    ensures tools == PlannedTools(f)
  {
    tools := [];
    if f.all || f.git {
      tools := tools + [Git];
    }
    if f.all || f.vim {
      tools := tools + [Vim];
    }
    assert tools == Pick(f.all || f.git, Git) + Pick(f.all || f.vim, Vim);
    var group := PlanShellGroup(f);
    tools := tools + group;
    PlannedToolsShape(f);
  }

  /** The block of the shell tools, with the version managers appended
      inside it. */
  method PlanShellGroup(f: Flags) returns (group: seq<Tool>)
    ensures group == (if ShellGroup(f) then ShellTools else []) + ManagerTools(f)
  {
    group := [];
    if f.all || f.zsh || f.gvm || f.java || f.rust {
      group := group + [Zsh, OhMyZsh, TheFuck, Bat, Fzf, Eza];
      if f.all || f.gvm {
        group := group + [Gvm];
      }
      if f.all || f.java {
        group := group + [Sdkman];
      }
      if f.all || f.rust {
        group := group + [Rustup];
      }
    }
  }

  /** The version managers selected; each of their flags also selects the
      shell group. */
  function ManagerTools(f: Flags): seq<Tool> {
    Pick(f.all || f.gvm, Gvm) + Pick(f.all || f.java, Sdkman) + Pick(f.all || f.rust, Rustup)
  }

  /** The step list, appended in the same blocks as the tools. */
  method PlanConfigs(f: Flags) returns (configs: seq<ConfigStep>)
    ensures configs == PlannedConfigs(f)
  {
    configs := [];
    if f.all || f.git {
      configs := configs + [GitConfig];
    }
    if f.all || f.vim {
      configs := configs + [VimConfig];
    }
    ghost var front := configs;
    assert front == Pick(f.all || f.git, GitConfig) + Pick(f.all || f.vim, VimConfig);
    if f.all || f.zsh || f.gvm || f.java || f.rust {
      configs := configs + [ZshConfig];
    }
    if f.all || f.macos {
      configs := configs + [MacosConfig];
    }
    assert configs == front + (Pick(ShellGroup(f), ZshConfig) + Pick(f.all || f.macos, MacosConfig));
    PlannedConfigsShape(f);
  }

  /** The planned tools, with the groups written out. */
  lemma PlannedToolsShape(f: Flags)
    ensures PlannedTools(f) ==
      Pick(f.all || f.git, Git) + Pick(f.all || f.vim, Vim) +
      ((if ShellGroup(f) then ShellTools else []) + ManagerTools(f))
  {
    var p := ToolRule(f);
    var front, back := [Git, Vim], [Gvm, Sdkman, Rustup];
    ToolOrderGroups();
    FilterAppend(front, ShellTools + back, p);
    FilterAppend(ShellTools, back, p);
    FrontShape(f);
    BackShape(f);
    ShellShape(f);
  }

  lemma ToolOrderGroups()
    ensures ToolOrder == [Git, Vim] + (ShellTools + [Gvm, Sdkman, Rustup])
  {
  }

  lemma ShellShape(f: Flags)
    ensures Filter(ShellTools, ToolRule(f)) == if ShellGroup(f) then ShellTools else []
  {
    forall k | 0 <= k < |ShellTools| ensures ToolRule(f)(ShellTools[k]) == ShellGroup(f) {
    }
    FilterUniform(ShellTools, ToolRule(f), ShellGroup(f));
  }

  lemma FrontShape(f: Flags)
    ensures Filter([Git, Vim], ToolRule(f)) == Pick(f.all || f.git, Git) + Pick(f.all || f.vim, Vim)
  {
    FilterCons(Git, [Vim], ToolRule(f));
    FilterCons(Vim, [], ToolRule(f));
  }

  lemma BackShape(f: Flags)
    ensures Filter([Gvm, Sdkman, Rustup], ToolRule(f)) == ManagerTools(f)
  {
    FilterCons(Gvm, [Sdkman, Rustup], ToolRule(f));
    FilterCons(Sdkman, [Rustup], ToolRule(f));
    FilterCons(Rustup, [], ToolRule(f));
  }

  /** The planned configuration steps, written out. */
  lemma PlannedConfigsShape(f: Flags)
    ensures PlannedConfigs(f) ==
      Pick(f.all || f.git, GitConfig) + Pick(f.all || f.vim, VimConfig) +
      (Pick(ShellGroup(f), ZshConfig) + Pick(f.all || f.macos, MacosConfig))
  {
    var q := StepRule(f);
    assert ConfigOrder == [GitConfig, VimConfig] + [ZshConfig, MacosConfig];
    FilterAppend([GitConfig, VimConfig], [ZshConfig, MacosConfig], q);
    FilterCons(GitConfig, [VimConfig], q);
    FilterCons(VimConfig, [], q);
    BackConfigsShape(f);
  }

  lemma BackConfigsShape(f: Flags)
    ensures Filter([ZshConfig, MacosConfig], StepRule(f)) ==
      Pick(ShellGroup(f), ZshConfig) + Pick(f.all || f.macos, MacosConfig)
  {
    FilterCons(ZshConfig, [MacosConfig], StepRule(f));
    FilterCons(MacosConfig, [], StepRule(f));
  }

  /** Without a selecting flag nothing would be planned anyway, and with one
      at least one configuration step is planned. */
  lemma UsageExactlyWhenIdle(f: Flags)
    ensures !Enabled(f) ==> PlannedTools(f) == [] && PlannedConfigs(f) == []
    ensures Enabled(f) ==> PlannedConfigs(f) != []
  {
    PlannedToolsShape(f);
    PlannedConfigsShape(f);
  }

  /** A tool is planned exactly when its rule selects it. */
  lemma ToolPlannedIff(f: Flags, t: Tool)
    ensures t in PlannedTools(f) <==> ToolSelected(f, t)
  {
    FilterMembership(ToolOrder, ToolRule(f), t);
    EveryToolInOrder(t);
  }

  /** A step is planned exactly when its rule selects it. */
  lemma StepPlannedIff(f: Flags, c: ConfigStep)
    ensures c in PlannedConfigs(f) <==> StepSelected(f, c)
  {
    FilterMembership(ConfigOrder, StepRule(f), c);
  }

  lemma EveryToolInOrder(t: Tool)
    ensures t in ToolOrder
  {
    var i := match t
      case Git => 0 case Vim => 1 case Zsh => 2 case OhMyZsh => 3 case TheFuck => 4
      case Bat => 5 case Fzf => 6 case Eza => 7 case Gvm => 8 case Sdkman => 9 case Rustup => 10;
    assert ToolOrder[i] == t;
  }

  /** Inclusion rules, one per tool. */
  lemma ToolInclusion(f: Flags)
    ensures Git in PlannedTools(f) <==> f.all || f.git
    ensures Vim in PlannedTools(f) <==> f.all || f.vim
    ensures forall t :: t in ShellTools ==> (t in PlannedTools(f) <==> ShellGroup(f))
    ensures Gvm in PlannedTools(f) <==> f.all || f.gvm
    ensures Sdkman in PlannedTools(f) <==> f.all || f.java
    ensures Rustup in PlannedTools(f) <==> f.all || f.rust
  {
    ToolPlannedIff(f, Git);
    ToolPlannedIff(f, Vim);
    ToolPlannedIff(f, Gvm);
    ToolPlannedIff(f, Sdkman);
    ToolPlannedIff(f, Rustup);
    forall t | t in ShellTools ensures t in PlannedTools(f) <==> ShellGroup(f) {
      ToolPlannedIff(f, t);
    }
  }

  /** Inclusion rules, one per configuration step. */
  lemma StepInclusion(f: Flags)
    ensures GitConfig in PlannedConfigs(f) <==> f.all || f.git
    ensures VimConfig in PlannedConfigs(f) <==> f.all || f.vim
    ensures ZshConfig in PlannedConfigs(f) <==> ShellGroup(f)
    ensures MacosConfig in PlannedConfigs(f) <==> f.all || f.macos
  {
    StepPlannedIff(f, GitConfig);
    StepPlannedIff(f, VimConfig);
    StepPlannedIff(f, ZshConfig);
    StepPlannedIff(f, MacosConfig);
  }

  /** The zsh configuration step runs exactly when zsh itself is planned. */
  lemma ZshStepWithZshTool(f: Flags)
    ensures ZshConfig in PlannedConfigs(f) <==> Zsh in PlannedTools(f)
  {
    ToolPlannedIff(f, Zsh);
    StepPlannedIff(f, ZshConfig);
  }

  /** Ordering: two planned tools appear in the plan in the order they have
      in `ToolOrder`. */
  lemma PlanOrder(f: Flags, i: nat, j: nat)
    requires i < j < |ToolOrder|
    requires ToolSelected(f, ToolOrder[i]) && ToolSelected(f, ToolOrder[j])
    ensures exists k, l :: (0 <= k < l < |PlannedTools(f)| &&
      PlannedTools(f)[k] == ToolOrder[i] && PlannedTools(f)[l] == ToolOrder[j])
  {
    assert ToolRule(f)(ToolOrder[i]) && ToolRule(f)(ToolOrder[j]);
    var k, l := FilterKeepsOrder(ToolOrder, ToolRule(f), i, j);
    assert PlannedTools(f) == Filter(ToolOrder, ToolRule(f));
  }

  /** No element occurs twice. */
  predicate Distinct<T(==)>(s: seq<T>) {
    forall a, b :: 0 <= a < b < |s| ==> s[a] != s[b]
  }

  /** Filtering a sequence without repetitions gives one without. */
  lemma {:induction false} FilterDistinct<T>(s: seq<T>, p: T -> bool)
    requires Distinct(s)
    ensures Distinct(Filter(s, p))
  {
    if s != [] {
      var tail := Filter(s[1..], p);
      assert Distinct(s[1..]) by {
        forall a, b | 0 <= a < b < |s[1..]| ensures s[1..][a] != s[1..][b] {
          assert s[1..][a] == s[a + 1] && s[1..][b] == s[b + 1];
        }
      }
      FilterDistinct(s[1..], p);
      FilterMembership(s[1..], p, s[0]);
      assert s[0] !in s[1..] by {
        forall k | 0 <= k < |s[1..]| ensures s[1..][k] != s[0] {
          assert s[1..][k] == s[k + 1];
        }
      }
      var h := if p(s[0]) then [s[0]] else [];
      assert Filter(s, p) == h + tail;
      forall a, b | 0 <= a < b < |h + tail| ensures (h + tail)[a] != (h + tail)[b] {
        if a < |h| {
          assert (h + tail)[b] == tail[b - 1];
          assert tail[b - 1] in tail;
        } else {
          assert (h + tail)[a] == tail[a - |h|] && (h + tail)[b] == tail[b - |h|];
        }
      }
    }
  }

  /** Each tool has one place in `ToolOrder`. */
  lemma DistinctToolOrder(a: nat, b: nat)
    requires a < |ToolOrder| && b < |ToolOrder| && ToolOrder[a] == ToolOrder[b]
    ensures a == b
  {
  }

  /** No tool is planned twice. */
  lemma PlannedToolsDistinct(f: Flags)
    ensures Distinct(PlannedTools(f))
  {
    forall a, b | 0 <= a < b < |ToolOrder| ensures ToolOrder[a] != ToolOrder[b] {
      if ToolOrder[a] == ToolOrder[b] { DistinctToolOrder(a, b); }
    }
    FilterDistinct(ToolOrder, ToolRule(f));
  }
}
