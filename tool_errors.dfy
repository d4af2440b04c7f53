/** The per-tool, per-action error table and its lookup with a fallback. */
module ToolErrors {
  import opened Base

  /** The tools the error table knows, in the order of its declaration. */
  const KnownTools: seq<string> := [
    ToolGit, ToolVim, ToolZsh, ToolOMZ, ToolTheFuck, ToolEza,
    ToolFzf, ToolBat, ToolGvm, ToolSdkman, ToolRustup]

  /** The tools that also have a `config` entry. */
  const ConfigurableTools: seq<string> := [ToolGit, ToolVim, ToolZsh]

  function CheckInstallEntries(tool: string): map<string, Error> {
    map[ActionCheck := ToolFailure(tool, ActionCheck),
        ActionInstall := ToolFailure(tool, ActionInstall)]
  }

  function AllEntries(tool: string): map<string, Error> {
    CheckInstallEntries(tool)[ActionConfig := ToolFailure(tool, ActionConfig)]
  }

  /** The table itself: every known tool has check and install errors, and
      only git, vim and zsh have a config error. */
  const Table: map<string, map<string, Error>> :=
    map tool | tool in KnownTools ::
      if tool in ConfigurableTools then AllEntries(tool) else CheckInstallEntries(tool)

  /** Whether the table has an entry for this tool and action, stated
      without the table: a known tool with check or install, or one of the
      configurable tools with config. */
  predicate HasEntry(tool: string, act: string) {
    tool in KnownTools &&
    (act == ActionCheck || act == ActionInstall ||
     (act == ActionConfig && tool in ConfigurableTools))
  }

  /** Two-level lookup; anything missing at either level gives
      `ErrUnknownTool`. */
  function GetError(tool: string, act: string): (r: Error)
    ensures HasEntry(tool, act) ==> r == ToolFailure(tool, act)
    ensures !HasEntry(tool, act) ==> r == ErrUnknownTool
  {
    TableShape(tool);
    if tool in Table && act in Table[tool] then Table[tool][act]
    else ErrUnknownTool
  }

  /** The table's row of a known tool, key by key. */
  lemma TableShape(tool: string)
    ensures tool in Table <==> tool in KnownTools
    ensures tool in Table ==> forall act :: act in Table[tool] <==> HasEntry(tool, act)
    ensures tool in Table ==> forall act :: act in Table[tool] ==> Table[tool][act] == ToolFailure(tool, act)
  {
    if tool in KnownTools {
      var row := Table[tool];
      assert row == if tool in ConfigurableTools then AllEntries(tool) else CheckInstallEntries(tool);
      RowShape(tool);
    }
  }

  /** The two kinds of row, key by key. */
  lemma RowShape(tool: string)
    ensures forall act :: act in CheckInstallEntries(tool) <==> act == ActionCheck || act == ActionInstall
    ensures forall act :: act in AllEntries(tool) <==> act == ActionCheck || act == ActionInstall || act == ActionConfig
    ensures forall act :: act in AllEntries(tool) ==> AllEntries(tool)[act] == ToolFailure(tool, act)
    ensures forall act :: act in CheckInstallEntries(tool) ==> CheckInstallEntries(tool)[act] == ToolFailure(tool, act)
  {
  }

  /** oh-my-zsh and fzf have check and install entries but no config entry. */
  lemma MissingConfigEntries()
    ensures GetError(ToolOMZ, ActionConfig) == ErrUnknownTool
    ensures GetError(ToolFzf, ActionConfig) == ErrUnknownTool
    ensures GetError(ToolOMZ, ActionInstall) == ToolFailure(ToolOMZ, ActionInstall)
    ensures GetError(ToolFzf, ActionCheck) == ToolFailure(ToolFzf, ActionCheck)
  {
  }

  /** The lookup never confuses two entries: distinct keys that both have an
      entry give distinct errors, and an entry is never the fallback. */
  lemma GetErrorInjective(t1: string, a1: string, t2: string, a2: string)
    requires HasEntry(t1, a1) && HasEntry(t2, a2)
    ensures GetError(t1, a1) != ErrUnknownTool
    ensures GetError(t1, a1) == GetError(t2, a2) <==> t1 == t2 && a1 == a2
  {
  }

  /** Every tool the program handles has check and install entries, and
      exactly git, vim and zsh have a config entry. */
  lemma {:induction false} EveryToolHasEntries(t: Tool)
    ensures HasEntry(ToolName(t), ActionCheck) && HasEntry(ToolName(t), ActionInstall)
    ensures HasEntry(ToolName(t), ActionConfig) <==> t in {Git, Vim, Zsh}
  {
    match t
    case Git => assert KnownTools[0] == ToolName(t) && ConfigurableTools[0] == ToolName(t);
    case Vim => assert KnownTools[1] == ToolName(t) && ConfigurableTools[1] == ToolName(t);
    case Zsh => assert KnownTools[2] == ToolName(t) && ConfigurableTools[2] == ToolName(t);
    case OhMyZsh => assert KnownTools[3] == ToolName(t);
    case TheFuck => assert KnownTools[4] == ToolName(t);
    case Eza => assert KnownTools[5] == ToolName(t);
    case Fzf => assert KnownTools[6] == ToolName(t);
    case Bat => assert KnownTools[7] == ToolName(t);
    case Gvm => assert KnownTools[8] == ToolName(t);
    case Sdkman => assert KnownTools[9] == ToolName(t);
    case Rustup => assert KnownTools[10] == ToolName(t);
  }
}
