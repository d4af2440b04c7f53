/** How one tool is checked and, when the check fails, how it is installed. */
module Installation {
  import opened Base
  import opened Platform
  import ToolErrors

  /** The installed-check: oh-my-zsh by the status of ~/.oh-my-zsh, every
      other tool by its name on the PATH. Only a definite "does not exist"
      fails the oh-my-zsh check; a probe that fails otherwise passes it. */
  function CheckPasses(tool: Tool, env: Env): (r: bool)
    ensures tool == OhMyZsh ==> (r <==> env.omzStat != NotExist)
    ensures tool == OhMyZsh && env.omzStat == StatFailed ==> r
    ensures tool != OhMyZsh ==> (r <==> ToolName(tool) in env.path)
  {
    if tool == OhMyZsh then env.omzStat != NotExist
    else ToolName(tool) in env.path
  }

  const OmzScript := "RUNZSH=no CHSH=no sh -c \"$(curl -fsSL https://raw.githubusercontent.com/ohmyzsh/ohmyzsh/master/tools/install.sh)\""
  const GvmScript := "bash < <(curl -s -S -L https://raw.githubusercontent.com/moovweb/gvm/master/binscripts/gvm-installer)"
  const SdkmanScript := "curl -s \"https://get.sdkman.io\" | bash"
  const RustupScript := "curl --proto '=https' --tlsv1.2 -sSf https://sh.rustup.rs | sh -s -- -y"

  /** The way a tool gets installed. A lenient script's failure is only
      logged. */
  datatype InstallRoute =
    | Script(command: Command, lenient: bool)
    | Binary
    | Package(command: Command)
    | NoPackageManager(error: Error)

  function ScriptCommand(script: string): Command {
    Command("bash", ["-c", script])
  }

  /** The routing of the install step: oh-my-zsh by a script whose failure
      counts, the version managers by scripts whose failure does not, fzf,
      bat and eza by a binary download, and everything else by the package
      manager with the tool name appended to its arguments. */
  function InstallRouteFor(tool: Tool, env: Env): (r: InstallRoute)
    ensures r.Script? <==> tool in {OhMyZsh, Gvm, Sdkman, Rustup}
    ensures r.Script? ==> r.command.name == "bash" && (r.lenient <==> tool != OhMyZsh)
    ensures r.Binary? <==> tool in {Fzf, Bat, Eza}
    ensures r.Package? ==>
      var pm := PackageManagerFor(env.goos, env.path);
      pm.Ok? && r.command == Command(pm.value.name, pm.value.args + [ToolName(tool)])
    ensures r.NoPackageManager? ==>
      var pm := PackageManagerFor(env.goos, env.path);
      pm.Err? && r.error == PkgManagerLookupFailed(pm.error)
  {
    match tool
    case OhMyZsh => Script(ScriptCommand(OmzScript), false)
    case Gvm => Script(ScriptCommand(GvmScript), true)
    case Sdkman => Script(ScriptCommand(SdkmanScript), true)
    case Rustup => Script(ScriptCommand(RustupScript), true)
    case Fzf => Binary
    case Bat => Binary
    case Eza => Binary
    case _ =>
      match PackageManagerFor(env.goos, env.path)
      case Ok(pm) => Package(Command(pm.name, pm.args + [ToolName(tool)]))
      case Err(e) => NoPackageManager(PkgManagerLookupFailed(e))
  }

  /** The install step's error, given the failure (if any) of what the route
      runs: a lenient script never fails, a missing package manager always
      does, and any other failure is reported under the tool's install
      error from the table. */
  function InstallResult(tool: Tool, route: InstallRoute, failure: Option<Error>): (r: Option<Error>)
    ensures route.Script? && route.lenient ==> r == None
    ensures route.NoPackageManager? ==> r == Some(route.error)
    ensures r.Some? && !route.NoPackageManager? ==>
      failure.Some? && r == Some(Wrapped(ToolFailure(ToolName(tool), ActionInstall), failure.value))
    ensures failure.None? ==> (r.Some? <==> route.NoPackageManager?)
    ensures failure.Some? && !route.NoPackageManager? && !(route.Script? && route.lenient) ==>
      r == Some(Wrapped(ToolFailure(ToolName(tool), ActionInstall), failure.value))
  {
    ToolErrors.EveryToolHasEntries(tool);
    match route
    case NoPackageManager(e) => Some(e)
    case Script(_, lenient) =>
      if lenient || failure.None? then None
      else Some(Wrapped(ToolErrors.GetError(ToolName(tool), ActionInstall), failure.value))
    case _ =>
      if failure.None? then None
      else Some(Wrapped(ToolErrors.GetError(ToolName(tool), ActionInstall), failure.value))
  }

  /** The version managers never make the install step fail, whatever their
      scripts do. */
  lemma VersionManagersNeverFail(tool: Tool, env: Env, failure: Option<Error>)
    requires tool in {Gvm, Sdkman, Rustup}
    ensures InstallResult(tool, InstallRouteFor(tool, env), failure) == None
  {
  }

  /** Tools installed through the package manager fail with the manager's
      lookup error when there is no manager; on Darwin that never happens. */
  lemma PackageRouteOnDarwin(tool: Tool, env: Env)
    requires env.goos == "darwin" && tool in {Git, Vim, Zsh, TheFuck}
    ensures InstallRouteFor(tool, env) == Package(Command("brew", ["install", ToolName(tool)]))
  {
  }
}
