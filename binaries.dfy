/** The binary installation of fzf, bat and eza: which release to download
    (or, for eza on Darwin, which package-manager command to run), how the
    archive is unpacked, which file counts as the binary and where it goes. */
module Binaries {
  import opened Base
  import opened Platform

  const FzfVersion := "0.67.0"
  const BatVersion := "0.26.1"
  const EzaVersion := "0.23.4"

  const SystemBinDir := "/usr/local/bin"

  /** Download a release archive, or run a command instead. */
  datatype BinaryPlan =
    | Download(url: string, tmpFile: string, binName: string)
    | RunCommand(command: Command)

  /** Every release archive is a gzipped tarball. */
  const TarballExt := ".tar.gz"

  function Tarball(stem: string): (r: string)
    ensures HasSuffix(r, TarballExt) && |r| > |stem|
  {
    assert (stem + TarballExt)[|stem + TarballExt| - |TarballExt|..] == TarballExt;
    stem + TarballExt
  }

  /** fzf's release: version, then OS and architecture as Go names them. */
  function FzfURL(os: OsType, arch: Arch): (url: string)
    ensures HasPrefix(url, "https://github.com/junegunn/fzf/releases/download/v" + FzfVersion + "/fzf-" + FzfVersion + "-")
    ensures HasSuffix(url, OsName(os) + "_" + ArchName(arch) + TarballExt) && HasSuffix(url, TarballExt)
    ensures |url| == |"https://github.com/junegunn/fzf/releases/download/v" + FzfVersion + "/fzf-" + FzfVersion + "-"| +
      |OsName(os) + "_" + ArchName(arch)| + |TarballExt|
  {
    var release := "https://github.com/junegunn/fzf/releases/download/v" + FzfVersion + "/fzf-" + FzfVersion + "-";
    var platform := OsName(os) + "_" + ArchName(arch);
    ConcatParts(release, platform, TarballExt);
    release + platform + TarballExt
  }

  /** bat's release: version, then the platform triple. */
  function BatURL(os: OsType, arch: Arch): (url: string)
    ensures HasPrefix(url, "https://github.com/sharkdp/bat/releases/download/v" + BatVersion + "/bat-v" + BatVersion + "-")
    ensures HasSuffix(url, Triple(os, arch) + TarballExt) && HasSuffix(url, TarballExt)
    ensures |url| == |"https://github.com/sharkdp/bat/releases/download/v" + BatVersion + "/bat-v" + BatVersion + "-"| +
      |Triple(os, arch)| + |TarballExt|
  {
    var release := "https://github.com/sharkdp/bat/releases/download/v" + BatVersion + "/bat-v" + BatVersion + "-";
    ConcatParts(release, Triple(os, arch), TarballExt);
    release + Triple(os, arch) + TarballExt
  }

  /** eza's release: version, then the Linux triple; eza has Linux
      releases only. */
  function EzaURL(arch: Arch): (url: string)
    ensures HasPrefix(url, "https://github.com/eza-community/eza/releases/download/v" + EzaVersion + "/eza_")
    ensures HasSuffix(url, Triple(Linux, arch) + TarballExt) && HasSuffix(url, TarballExt)
    ensures |url| == |"https://github.com/eza-community/eza/releases/download/v" + EzaVersion + "/eza_"| +
      |Triple(Linux, arch)| + |TarballExt|
  {
    var release := "https://github.com/eza-community/eza/releases/download/v" + EzaVersion + "/eza_";
    ConcatParts(release, Triple(Linux, arch), TarballExt);
    release + Triple(Linux, arch) + TarballExt
  }

  /** The release URL of fzf, bat or eza: a tarball named after the OS and
      architecture (fzf) or the platform triple (bat, and eza on Linux). */
  function ReleaseURL(tool: Tool, os: OsType, arch: Arch): (url: string)
    requires tool in {Fzf, Bat, Eza}
    ensures HasSuffix(url, TarballExt)
    ensures tool == Fzf ==> HasSuffix(url, OsName(os) + "_" + ArchName(arch) + TarballExt)
    ensures tool == Bat ==> HasSuffix(url, Triple(os, arch) + TarballExt)
    ensures tool == Eza ==> HasSuffix(url, Triple(Linux, arch) + TarballExt)
  {
    match tool
    case Fzf => FzfURL(os, arch)
    case Bat => BatURL(os, arch)
    case Eza => EzaURL(arch)
  }

  /** The command that installs eza through the package manager. Homebrew
      refuses to run as root, so under sudo it is run as the invoking user. */
  function EzaPackageCommand(pm: PackageManager, uid: int, sudoUser: string): (c: Command)
    ensures uid == 0 && pm.name == "brew" && sudoUser != "" ==>
      c == Command("sudo", ["-u", sudoUser, "brew"] + pm.args + ["eza"])
    ensures !(uid == 0 && pm.name == "brew" && sudoUser != "") ==>
      c == Command(pm.name, pm.args + ["eza"])
  {
    var args := pm.args + ["eza"];
    if uid == 0 && pm.name == "brew" && sudoUser != "" then
      Command("sudo", ["-u", sudoUser, pm.name] + args)
    else
      Command(pm.name, args)
  }

  /** Where a release archive is downloaded to. */
  const TmpDir := "/tmp"

  /** The release archive of a tool on a platform, for the tools that
      have one there: fzf and bat everywhere, eza on Linux only. */
  function ReleaseFor(tool: Tool, os: OsType, arch: Arch): (r: Option<BinaryPlan>)
    ensures r.Some? <==> tool == Fzf || tool == Bat || (tool == Eza && os == Linux)
    ensures r.Some? ==> r.value.Download?
  {
    if tool == Fzf || tool == Bat || (tool == Eza && os == Linux) then
      Some(Download(ReleaseURL(tool, os, arch), ArchivePath(ToolName(tool)), ToolName(tool)))
    else None
  }

  /** A release is a tarball, downloaded to /tmp/<name>.tar.gz and holding
      a binary named after the tool. */
  lemma ReleaseShape(tool: Tool, os: OsType, arch: Arch)
    requires ReleaseFor(tool, os, arch).Some?
    ensures var d := ReleaseFor(tool, os, arch).value;
      && HasSuffix(d.url, TarballExt) && HasSuffix(d.tmpFile, TarballExt)
      && d.binName == ToolName(tool) && d.tmpFile == ArchivePath(ToolName(tool))
  {
    match tool
    case Fzf =>
    case Bat =>
    case Eza =>
  }

  /** Each tool's archive is downloaded to /tmp/<name>.tar.gz. */
  function ArchivePath(binName: string): string {
    Tarball(TmpDir + "/" + binName)
  }

  /** eza on Darwin: the package manager's command, or its lookup error. */
  function EzaViaPackageManager(env: Env): (r: Result<BinaryPlan>)
    ensures r.Ok? ==> r.value.RunCommand?
  {
    match PackageManagerFor(env.goos, env.path)
    case Err(e) => Err(PkgManagerLookupFailed(e))
    case Ok(pm) => Ok(RunCommand(EzaPackageCommand(pm, env.uid, env.sudoUser)))
  }

  /** What `installBinaryTool` decides before any download: the OS is
      checked first; then fzf, bat and eza pick their release (eza on Darwin
      goes through the package manager instead) and any other tool is
      refused; an empty URL would be refused too. */
  function BinaryInstallPlan(tool: Tool, env: Env): (r: Result<BinaryPlan>)
    ensures ConditionOS(env.goos).Err? ==> r == Err(ErrUnsupportedOS)
    ensures ConditionOS(env.goos).Ok? && tool in {Fzf, Bat} ==> r.Ok?
    ensures r.Ok? && r.value.Download? ==>
      ConditionOS(env.goos).Ok? && ReleaseFor(tool, ConditionOS(env.goos).value, GetArch(env.goarch)) == Some(r.value)
    ensures r.Ok? && r.value.Download? ==> r.value.url != "" && r.value.binName == ToolName(tool)
    ensures r.Ok? && r.value.RunCommand? ==> tool == Eza && env.goos == "darwin"
    ensures tool == Eza && env.goos == "darwin" ==> r == EzaViaPackageManager(env)
    ensures r != Err(NoDownloadURL)
  {
    match ConditionOS(env.goos)
    case Err(e) => Err(e)
    case Ok(os) =>
      if tool == Eza && os == Darwin then EzaViaPackageManager(env)
      else
        match ReleaseFor(tool, os, GetArch(env.goarch))
        case None => Err(UnsupportedTool(ToolName(tool)))
        case Some(d) =>
          ReleaseShape(tool, os, GetArch(env.goarch));
          if d.url == "" then Err(NoDownloadURL) else Ok(d)
  }

  /** A tool without a binary release is refused once the OS is known. */
  lemma UnsupportedToolsRefused(tool: Tool, env: Env)
    requires ConditionOS(env.goos).Ok? && tool !in {Fzf, Bat, Eza}
    ensures BinaryInstallPlan(tool, env) == Err(UnsupportedTool(ToolName(tool)))
  {
  }

  /** fzf and bat download their release everywhere, eza on Linux. */
  lemma DownloadTargets(tool: Tool, env: Env)
    requires ConditionOS(env.goos).Ok?
    requires tool in {Fzf, Bat} || (tool == Eza && env.goos == "linux")
    ensures var os, arch := ConditionOS(env.goos).value, GetArch(env.goarch);
      BinaryInstallPlan(tool, env) ==
        Ok(Download(ReleaseURL(tool, os, arch), ArchivePath(ToolName(tool)), ToolName(tool)))
  {
  }

  /** On Darwin, eza is installed with brew, as the invoking user under sudo. */
  lemma EzaOnDarwin(env: Env)
    requires env.goos == "darwin"
    ensures env.uid == 0 && env.sudoUser != "" ==>
      BinaryInstallPlan(Eza, env) == Ok(RunCommand(Command("sudo", ["-u", env.sudoUser, "brew", "install", "eza"])))
    ensures !(env.uid == 0 && env.sudoUser != "") ==>
      BinaryInstallPlan(Eza, env) == Ok(RunCommand(Command("brew", ["install", "eza"])))
  {
    PackageManagerChoice(env.goos, env.path);
    assert ["-u", env.sudoUser, "brew"] + ["install"] + ["eza"] == ["-u", env.sudoUser, "brew", "install", "eza"];
    assert ["install"] + ["eza"] == ["install", "eza"];
  }

  /** How the downloaded archive is unpacked, by the file name's suffix. */
  datatype Extractor = Tar | Unzip | NoExtraction

  function ExtractorFor(tmpFile: string): (r: Extractor)
    ensures r == Tar <==> HasSuffix(tmpFile, ".tar.gz") || HasSuffix(tmpFile, ".tgz")
    ensures r == Unzip <==> !HasSuffix(tmpFile, ".tar.gz") && !HasSuffix(tmpFile, ".tgz") && HasSuffix(tmpFile, ".zip")
  {
    if HasSuffix(tmpFile, ".tar.gz") || HasSuffix(tmpFile, ".tgz") then Tar
    else if HasSuffix(tmpFile, ".zip") then Unzip
    else NoExtraction
  }

  /** The scratch directory the archive is unpacked into. */
  function ExtractDir(binName: string): string {
    "/tmp/extract_" + binName
  }

  function ExtractCommand(tmpFile: string, tmpDir: string): (r: Option<Command>)
    ensures r.None? <==> ExtractorFor(tmpFile) == NoExtraction
    ensures ExtractorFor(tmpFile) == Tar ==> r == Some(Command("tar", ["-xzf", tmpFile, "-C", tmpDir]))
    ensures ExtractorFor(tmpFile) == Unzip ==> r == Some(Command("unzip", ["-q", tmpFile, "-d", tmpDir]))
  {
    match ExtractorFor(tmpFile)
    case Tar => Some(Command("tar", ["-xzf", tmpFile, "-C", tmpDir]))
    case Unzip => Some(Command("unzip", ["-q", tmpFile, "-d", tmpDir]))
    case NoExtraction => None
  }

  /** Every archive the program downloads is a gzipped tarball. */
  lemma DownloadsAreTarballs(tool: Tool, env: Env)
    requires BinaryInstallPlan(tool, env).Ok? && BinaryInstallPlan(tool, env).value.Download?
    ensures ExtractorFor(BinaryInstallPlan(tool, env).value.tmpFile) == Tar
  {
  }


  /** A file found while walking the unpacked tree is taken as the binary
      when it is not a directory, its name starts with the binary's name and
      its mode has some execute bit (mask 0111). */
  predicate IsBinaryCandidate(name: string, isDir: bool, mode: bv32, binName: string) {
    !isDir && (name == binName || HasPrefix(name, binName)) && mode & 0x49 != 0
  }

  lemma BinaryCandidateRule(name: string, isDir: bool, mode: bv32, binName: string)
    ensures IsBinaryCandidate(name, isDir, mode, binName) <==>
      !isDir && HasPrefix(name, binName) &&
      (mode & 0x40 != 0 || mode & 0x08 != 0 || mode & 0x01 != 0)
  {
    if name == binName {
      assert name[..|binName|] == name;
    }
  }

  /** The install directory: /usr/local/bin unless it is definitely missing
      and cannot be created, then ~/.local/bin. */
  function TargetDir(systemStat: StatResult, mkdirOk: bool, homeDir: string): (r: string)
    ensures r == homeDir + "/.local/bin" || r == SystemBinDir
    ensures r == SystemBinDir <== systemStat != NotExist || mkdirOk
    ensures systemStat == NotExist && !mkdirOk ==> r == homeDir + "/.local/bin"
  {
    if systemStat == NotExist && !mkdirOk then homeDir + "/.local/bin" else SystemBinDir
  }

  /** The commands a download-and-install runs and the error it ends with,
      when the commands themselves succeed. */
  datatype DownloadSteps = DownloadSteps(commands: seq<Command>, err: Option<Error>)

  /** `downloadAndInstallBinary`, given the file the walk found (empty when
      none): fetch, unpack when the suffix calls for it, and then either
      stop because no binary was found, or move the binary into place and
      make it executable. */
  function DownloadCommands(url: string, tmpFile: string, binName: string, targetDir: string, found: string): (r: DownloadSteps)
    ensures |r.commands| >= 1 && r.commands[0] == Command("curl", ["-fsSL", "-o", tmpFile, url])
    ensures ExtractorFor(tmpFile) != NoExtraction ==>
      |r.commands| >= 2 && ExtractCommand(tmpFile, ExtractDir(binName)) == Some(r.commands[1])
    ensures r.err.Some? <==> found == ""
    ensures found == "" ==> r.err == Some(BinaryNotFound(binName))
    ensures found == "" ==> forall c :: c in r.commands ==> c.name !in {"mv", "chmod"}
    ensures found != "" ==>
      |r.commands| >= 3 &&
      r.commands[|r.commands| - 2] == Command("mv", [found, targetDir + "/" + binName]) &&
      r.commands[|r.commands| - 1] == Command("chmod", ["+x", targetDir + "/" + binName])
    ensures |r.commands| == 1 + (if ExtractorFor(tmpFile) != NoExtraction then 1 else 0) + (if found != "" then 2 else 0)
  {
    var target := targetDir + "/" + binName;
    var unpack := match ExtractCommand(tmpFile, ExtractDir(binName))
      case Some(c) => [c]
      case None => [];
    var front := [Command("curl", ["-fsSL", "-o", tmpFile, url])] + unpack;
    if found == "" then DownloadSteps(front, Some(BinaryNotFound(binName)))
    else DownloadSteps(front + [Command("mv", [found, target]), Command("chmod", ["+x", target])], None)
  }
}
