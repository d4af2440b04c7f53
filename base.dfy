/** Vocabulary shared by every part of the bootstrapper model: the tool and
    action names (strings, as in the program), the command-line flags, the
    error values and the outcome of a file-status probe. */
module Base {

  datatype Option<+T> = None | Some(value: T)

  datatype Result<+T> = Ok(value: T) | Err(error: Error)

  // Tool names. The program's `tools` type is a string, so any string can
  // be passed where a tool is expected; these are the names it defines.
  const ToolGit := "git"
  const ToolVim := "vim"
  const ToolZsh := "zsh"
  const ToolOMZ := "oh-my-zsh"
  const ToolTheFuck := "thefuck"
  const ToolEza := "eza"
  const ToolFzf := "fzf"
  const ToolBat := "bat"
  const ToolGvm := "gvm"
  const ToolSdkman := "sdkman"
  const ToolRustup := "rustup"

  /** The tools as the program handles them: every value of type `tools`
      that the program creates is one of the eleven constants above. */
  datatype Tool = Git | Vim | Zsh | OhMyZsh | TheFuck | Eza | Fzf | Bat | Gvm | Sdkman | Rustup

  function ToolName(t: Tool): string {
    match t
    case Git => ToolGit
    case Vim => ToolVim
    case Zsh => ToolZsh
    case OhMyZsh => ToolOMZ
    case TheFuck => ToolTheFuck
    case Eza => ToolEza
    case Fzf => ToolFzf
    case Bat => ToolBat
    case Gvm => ToolGvm
    case Sdkman => ToolSdkman
    case Rustup => ToolRustup
  }

  // Action names, also strings in the program.
  const ActionCheck := "check"
  const ActionInstall := "install"
  const ActionConfig := "config"

  /** The error values the program produces. Each entry of the error table
      is a distinct value, identified here by its tool and action; errors
      that the program builds with a message around a cause are `Wrapped`. */
  datatype Error =
    | ErrPkgManager
    | ErrUnsupportedOS
    | ErrUnknownTool
    | ToolFailure(tool: string, act: string)
    | UnsupportedTool(tool: string)
    | NoDownloadURL
    | NotMacos
    | BinaryNotFound(binName: string)
    | PkgManagerLookupFailed(cause: Error)
    | Wrapped(context: Error, cause: Error)

  /** The boolean and string flags of the command line. */
  datatype Flags = Flags(
    vim: bool, git: bool, zsh: bool, macos: bool, all: bool,
    gvm: bool, java: bool, rust: bool,
    dryRun: bool, force: bool,
    gitName: string, gitEmail: string)

  /** What a file-status probe reports: the file is there, it is not there,
      or the probe failed for another reason (permissions, I/O). The program
      tests `err == nil` in some places and `os.IsNotExist(err)` in others,
      and the two differ exactly on `StatFailed`. */
  datatype StatResult = Exists | NotExist | StatFailed

  /** `strings.HasPrefix` and `strings.HasSuffix`. */
  predicate HasPrefix(s: string, prefix: string) {
    |prefix| <= |s| && s[..|prefix|] == prefix
  }

  predicate HasSuffix(s: string, suffix: string) {
    |suffix| <= |s| && s[|s| - |suffix|..] == suffix
  }

  /** A string joined from three parts starts with the first, ends with the
      last two and with the last, and has their lengths added up. */
  lemma ConcatParts(a: string, b: string, c: string)
    ensures HasPrefix(a + b + c, a)
    ensures HasSuffix(a + b + c, b + c) && HasSuffix(a + b + c, c)
    ensures |a + b + c| == |a| + |b| + |c|
  {
    assert (a + b + c)[..|a|] == a;
    assert (a + b + c)[|a + b + c| - |b + c|..] == b + c;
    assert (a + b + c)[|a + b + c| - |c|..] == c;
  }

  /** What the program reads from its surroundings: GOOS and GOARCH, the
      command names found on the PATH, the user id, SUDO_USER, and the status
      of ~/.oh-my-zsh. */
  datatype Env = Env(
    goos: string, goarch: string, path: set<string>,
    uid: int, sudoUser: string, omzStat: StatResult)

  /** A command line handed to the operating system. */
  datatype Command = Command(name: string, args: seq<string>)
}
