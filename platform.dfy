/** Classification of the host platform and the choice of package manager. */
module Platform {
  import opened Base

  datatype OsType = Linux | Darwin

  datatype Arch = AMD64 | ARM64

  function OsName(os: OsType): string {
    match os
    case Linux => "linux"
    case Darwin => "darwin"
  }

  function ArchName(arch: Arch): string {
    match arch
    case AMD64 => "amd64"
    case ARM64 => "arm64"
  }

  /** Classifies the GOOS string: only "linux" and "darwin" are supported. */
  function ConditionOS(goos: string): (r: Result<OsType>)
    ensures r == Ok(Linux) <==> goos == "linux"
    ensures r == Ok(Darwin) <==> goos == "darwin"
    ensures r.Err? <==> goos != "linux" && goos != "darwin"
    ensures r.Err? ==> r.error == ErrUnsupportedOS
    ensures r.Ok? ==> OsName(r.value) == goos
  {
    if goos == "linux" then Ok(Linux)
    else if goos == "darwin" then Ok(Darwin)
    else Err(ErrUnsupportedOS)
  }

  /** Classifies the GOARCH string: "amd64" is amd64, and every other value,
      known or not, is treated as arm64. */
  function GetArch(goarch: string): (r: Arch)
    ensures r == AMD64 <==> goarch == "amd64"
    ensures r == ARM64 <==> goarch != "amd64"
  {
    if goarch == "amd64" then AMD64
    else if goarch == "arm64" then ARM64
    else ARM64
  }

  /** The two classifications invert the printed names. */
  lemma ClassifyNames(os: OsType, arch: Arch)
    ensures ConditionOS(OsName(os)) == Ok(os)
    ensures GetArch(ArchName(arch)) == arch
  {
  }

  /** A package manager: the command to run and the arguments that precede
      the package name. */
  datatype PackageManager = PackageManager(name: string, args: seq<string>)

  const Brew := PackageManager("brew", ["install"])

  /** The Linux package managers, in priority order. */
  const LinuxManagers: seq<PackageManager> := [
    PackageManager("apt", ["install", "-y"]),
    PackageManager("yum", ["install", "-y"]),
    PackageManager("dnf", ["install", "-y"]),
    PackageManager("pacman", ["-S", "--noconfirm"])]

  /** The first manager of `ms` whose command is on the PATH. */
  function FirstAvailable(ms: seq<PackageManager>, path: set<string>): Option<PackageManager> {
    if ms == [] then None
    else if ms[0].name in path then Some(ms[0])
    else FirstAvailable(ms[1..], path)
  }

  /** `FirstAvailable` picks the entry at index i exactly when it is on the
      PATH and no earlier entry is. */
  lemma {:induction false} FirstAvailableAt(ms: seq<PackageManager>, path: set<string>, i: nat)
    requires i < |ms| && ms[i].name in path
    requires forall j :: 0 <= j < i ==> ms[j].name !in path
    ensures FirstAvailable(ms, path) == Some(ms[i])
  {
    if i > 0 {
      FirstAvailableAt(ms[1..], path, i - 1);
    }
  }

  /** `FirstAvailable` finds nothing exactly when no entry is on the PATH,
      and whatever it finds is an entry that is on the PATH and comes after
      only entries that are not. */
  lemma {:induction false} FirstAvailableSound(ms: seq<PackageManager>, path: set<string>)
    ensures FirstAvailable(ms, path).None? <==> forall j :: 0 <= j < |ms| ==> ms[j].name !in path
    ensures FirstAvailable(ms, path).Some? ==>
      exists i :: 0 <= i < |ms| && ms[i] == FirstAvailable(ms, path).value && ms[i].name in path &&
        forall j :: 0 <= j < i ==> ms[j].name !in path
  {
    if ms != [] && ms[0].name !in path {
      FirstAvailableSound(ms[1..], path);
      if FirstAvailable(ms, path).Some? {
        var i :| 0 <= i < |ms[1..]| && ms[1..][i] == FirstAvailable(ms[1..], path).value &&
          ms[1..][i].name in path && forall j :: 0 <= j < i ==> ms[1..][j].name !in path;
        assert ms[i + 1] == ms[1..][i];
        forall j | 0 <= j < i + 1 ensures ms[j].name !in path {
          if j > 0 { assert ms[j] == ms[1..][j - 1]; }
        }
      } else {
        forall j | 0 <= j < |ms| ensures ms[j].name !in path {
          if j > 0 { assert ms[j] == ms[1..][j - 1]; }
        }
      }
    }
  }

  /** The choice of package manager: the OS error if the OS is unsupported,
      brew on Darwin without looking at the PATH, and on Linux the first
      available of the priority list, or `ErrPkgManager` if none is. */
  function PackageManagerFor(goos: string, path: set<string>): Result<PackageManager> {
    match ConditionOS(goos)
    case Err(e) => Err(e)
    case Ok(Darwin) => Ok(Brew)
    case Ok(Linux) =>
      match FirstAvailable(LinuxManagers, path)
      case Some(m) => Ok(m)
      case None => Err(ErrPkgManager)
  }

  /** PATH lookup with early return over the priority list. */
  method GetPackageManager(goos: string, path: set<string>) returns (r: Result<PackageManager>)
    ensures r == PackageManagerFor(goos, path)
  {
    var os := ConditionOS(goos);
    if os.Err? {
      return Err(os.error);
    }
    if os.value == Darwin {
      return Ok(Brew);
    }
    var managers := LinuxManagers;
    var i := 0;
    while i < |managers|
      invariant 0 <= i <= |managers|
      invariant FirstAvailable(managers, path) == FirstAvailable(managers[i..], path)
    {
      assert managers[i..][1..] == managers[i + 1..];
      if managers[i].name in path {
        return Ok(managers[i]);
      }
      i := i + 1;
    }
    return Err(ErrPkgManager);
  }

  /** What the choice promises, stated without `FirstAvailable`. */
  lemma PackageManagerChoice(goos: string, path: set<string>)
    ensures goos != "linux" && goos != "darwin" ==> PackageManagerFor(goos, path) == Err(ErrUnsupportedOS)
    ensures goos == "darwin" ==> PackageManagerFor(goos, path) == Ok(PackageManager("brew", ["install"]))
    ensures goos == "linux" ==>
      (PackageManagerFor(goos, path) == Err(ErrPkgManager) <==>
        "apt" !in path && "yum" !in path && "dnf" !in path && "pacman" !in path)
    ensures goos == "linux" && "apt" in path ==>
      PackageManagerFor(goos, path) == Ok(PackageManager("apt", ["install", "-y"]))
    ensures goos == "linux" && "apt" !in path && "yum" in path ==>
      PackageManagerFor(goos, path) == Ok(PackageManager("yum", ["install", "-y"]))
    ensures goos == "linux" && "apt" !in path && "yum" !in path && "dnf" in path ==>
      PackageManagerFor(goos, path) == Ok(PackageManager("dnf", ["install", "-y"]))
    ensures goos == "linux" && "apt" !in path && "yum" !in path && "dnf" !in path && "pacman" in path ==>
      PackageManagerFor(goos, path) == Ok(PackageManager("pacman", ["-S", "--noconfirm"]))
  {
    FirstAvailableSound(LinuxManagers, path);
    if goos == "linux" {
      if "apt" in path {
        FirstAvailableAt(LinuxManagers, path, 0);
      } else if "yum" in path {
        FirstAvailableAt(LinuxManagers, path, 1);
      } else if "dnf" in path {
        FirstAvailableAt(LinuxManagers, path, 2);
      } else if "pacman" in path {
        FirstAvailableAt(LinuxManagers, path, 3);
      }
    }
  }

  /** On Linux a chosen manager is on the PATH and every manager ahead of it
      in the priority list is not. */
  lemma PackageManagerFirstWins(path: set<string>)
    ensures PackageManagerFor("linux", path).Ok? ==>
      exists i :: 0 <= i < |LinuxManagers| && LinuxManagers[i] == PackageManagerFor("linux", path).value &&
        LinuxManagers[i].name in path &&
        forall j :: 0 <= j < i ==> LinuxManagers[j].name !in path
  {
    FirstAvailableSound(LinuxManagers, path);
  }

  /** The CPU part of a release's platform triple. */
  function CpuName(arch: Arch): string {
    match arch
    case ARM64 => "aarch64"
    case AMD64 => "x86_64"
  }

  /** The vendor-and-system part of a release's platform triple. */
  function SystemName(os: OsType): string {
    match os
    case Linux => "unknown-linux-gnu"
    case Darwin => "apple-darwin"
  }

  /** The platform triple of a release name: the CPU by architecture, a
      dash, and vendor and system by OS. */
  function Triple(os: OsType, arch: Arch): (r: string)
    ensures HasPrefix(r, CpuName(arch) + "-")
    ensures HasSuffix(r, "-" + SystemName(os))
    ensures |r| == |CpuName(arch)| + 1 + |SystemName(os)|
  {
    ConcatEnds(CpuName(arch), "-", SystemName(os));
    CpuName(arch) + "-" + SystemName(os)
  }

  lemma ConcatEnds(a: string, b: string, c: string)
    ensures HasPrefix(a + b + c, a + b) && HasSuffix(a + b + c, b + c)
  {
    assert (a + b + c)[..|a + b|] == a + b;
    assert (a + b + c)[|a + b + c| - |b + c|..] == b + c;
  }
}
