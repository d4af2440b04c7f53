# Dev-environment bootstrapper, modelled in Dafny

The program (`main.go`) sets up a developer machine. Command-line flags
(`-git`, `-vim`, `-zsh`, `-macos`, `-all`, `-gvm`, `-java`, `-rust`, plus
`-f`, `-dry-run`, `-git-name`, `-git-email`) select work. `_main` then does
three things:

1. it builds an ordered list of tools (git, vim, zsh, oh-my-zsh, thefuck,
   bat, fzf, eza, gvm, sdkman, rustup) and an ordered list of configuration
   steps (git, vim, zsh, macOS);
2. it checks each tool and installs it when the check fails;
3. it applies the configuration steps.

Both loops stop at the first error. Nearly everything the program does is a
shell-out. This model keeps the decisions it makes around those shell-outs,
stated over an abstract environment. That environment is the GOOS and GOARCH
strings, the set of command names found on the PATH, the user id,
`SUDO_USER`, and the outcome of each file-status probe.

The modules follow the program's parts:

- `Base`: shared vocabulary.
  - The tool and action names.
  - The `Tool` datatype of the eleven tools.
  - The error values.
  - The flags and the environment.
  - `StatResult`, a probe outcome of `Exists`, `NotExist` or `StatFailed`. The
    program tests `err == nil` in some places and `os.IsNotExist(err)` in
    others, and the two differ exactly on a failed probe.
- `ToolErrors`: the error table and `getError`'s two-level lookup with its
  fallback. The lookup is on strings, as in the program, so the outer miss
  can happen.
- `Platform`:
  - `conditionOS` and `getArch`;
  - the bat/eza platform triple;
  - `getPackageManager`, as a method with the program's loop over the Linux
    managers, proved equal to a first-available specification.
- `Planning`: how `_main` builds its two lists by successive appends
  (`PlanRun`, `PlanTools`, `PlanShellGroup`, `PlanConfigs`). Each is proved
  equal to a filter of a fixed order by an inclusion rule (`PlannedTools`,
  `PlannedConfigs`). The inclusion, ordering and usage properties are proved
  about those filters.
- `Installation`: the check (`checkFunc`), the install routing of
  `installFunc`, and how the install error is formed. Lenient version-manager
  scripts never fail.
- `Binaries`: what `installBinaryTool` decides before downloading:
  - the release URL, temporary file and binary name;
  - eza on Darwin through the package manager, as `sudo -u <user> brew …`
    under root;
  - refusal of other tools.

  It also covers the suffix rule for unpacking, the executable-file rule for
  finding the binary, the install directory, and the command sequence of
  `downloadAndInstallBinary`.
- `Runner`: the fail-fast runner `RunAll`, `checkAndInstall`, the
  `macosCustomize` OS guard, and `_main` as the method `Bootstrap`.
  - `Bootstrap` calls the two loops `RunTools` and `RunConfigs`. Each is proved
    equal to `RunAll` and, through it, to the specification `BootstrapSpec`.
  - Properties of whole runs are proved about `BootstrapSpec`: usage only
    when idle, only selected tools touched, configuration only after every
    tool succeeded, the first failure ending the run.
  - On Linux, a `-all` run in which every tool and every other step
    succeeds still ends with the macOS step's refusal, because
    `macosCustomize` returns an error on any OS but Darwin.
- `ConfigFiles`:
  - the "skip if it exists and is not forced" rule and its inverse "write if
    missing or forced";
  - `strings.ReplaceAll` and the `.gitconfig` placeholder filling. `git` is
    the method `ConfigureGit`, which reassigns the content as the program
    does. The email placeholder is replaced after the user line is in
    place, so a git name that itself contains `{{.Email}}` has it replaced
    too, as in the program;
  - the copy loop over the zsh configuration files;
  - the flags handed to the `envs.zsh` template.

The outcomes of commands the program cannot see into are parameters:
`runFailure` for the install commands and scripts, `configure` for the git,
vim and zsh configuration functions, and `writeErr` for file writes. The model
proves what the program does with whatever those report.

Where the source is a `switch` over string constants, the model matches on
the `Tool` datatype and maps it to the source's strings with `ToolName`. The
platform triple is built from a CPU part and a system part joined by `-`. Its
four values are the source's four literals.

## Model

| member | source | states |
|---|---|---|
| ToolErrors.GetError | main.go:130-139 | the table's entry for the tool and action when both keys are present, otherwise `ErrUnknownTool` |
| ToolErrors.TableShape | main.go:92-104 | the table has a row for exactly the eleven tool names; within a row an action is present exactly when the entry exists, and each value is that tool's and action's error |
| ToolErrors.MissingConfigEntries | main.go:96-103 | oh-my-zsh and fzf have no `config` entry, so the lookup falls back to `ErrUnknownTool`; their `install` and `check` entries exist |
| ToolErrors.GetErrorInjective | main.go:92-104 | two present entries are the same error exactly when tool and action are the same, and neither is `ErrUnknownTool` |
| ToolErrors.EveryToolHasEntries | main.go:92-104 | every tool has `check` and `install` entries, and a `config` entry exactly when it is git, vim or zsh |
| Platform.ConditionOS | main.go:141-151 | `linux` and `darwin` are classified as themselves and any other GOOS is `ErrUnsupportedOS` |
| Platform.GetArch | main.go:153-163 | `amd64` gives amd64 and every other GOARCH, unknown ones included, gives arm64 |
| Platform.ClassifyNames | main.go:141-163 | classifying the name of an OS or architecture gives it back |
| Platform.FirstAvailableAt | main.go:467-471 | the first manager whose command is on the PATH is chosen, when one is |
| Platform.FirstAvailableSound | main.go:467-471 | a chosen manager is on the PATH and every manager before it in the list is not; nothing is chosen only when none is on the PATH |
| Platform.GetPackageManager | main.go:445-474 | the loop's result equals the first-available specification: the OS error, brew on Darwin, the first Linux manager on the PATH, or `ErrPkgManager` |
| Platform.PackageManagerChoice | main.go:445-474 | written out: the OS error on other systems; `brew install` on Darwin whatever the PATH; on Linux apt, yum, dnf (`install -y`) and pacman (`-S --noconfirm`) in that priority; `ErrPkgManager` exactly when none of the four is on the PATH |
| Platform.PackageManagerFirstWins | main.go:457-471 | a Linux choice is an entry of the priority list that is on the PATH, with no earlier entry on the PATH |
| Platform.Triple | main.go:379-404 | the triple is the CPU name (`aarch64` for arm64, `x86_64` otherwise), a dash, and the system name (`unknown-linux-gnu` or `apple-darwin`): it starts with the first, ends with the second and has exactly their length plus one |
| Planning.PlanRun | main.go:907-967 | usage exactly when no selecting flag is set; otherwise the tool and step lists equal the planned lists |
| Planning.PlanTools | main.go:941-961 | the appended tool list equals the planned tools |
| Planning.PlanShellGroup | main.go:951-961 | the shell block is zsh, oh-my-zsh, thefuck, bat, fzf, eza when any of all/zsh/gvm/java/rust is set, followed by each selected version manager in the order gvm, sdkman, rustup |
| Planning.PlanConfigs | main.go:941-967 | the appended step list equals the planned steps |
| Planning.PlannedToolsShape | main.go:941-961 | the planned tools are git if all or git, then vim if all or vim, then the shell block with its version managers |
| Planning.PlannedConfigsShape | main.go:941-967 | the planned steps are git, vim, zsh, macOS, in that order, each under its flags |
| Planning.ShellShape | main.go:951-952 | the six shell tools are planned all together or not at all |
| Planning.UsageExactlyWhenIdle | main.go:909-912 | without a selecting flag nothing is planned, and with one at least one configuration step is planned |
| Planning.ToolPlannedIff | main.go:941-961 | a tool is planned exactly when its inclusion rule holds |
| Planning.StepPlannedIff | main.go:941-967 | a step is planned exactly when its inclusion rule holds |
| Planning.EveryToolInOrder | main.go:941-961 | every tool has a place in the plan order |
| Planning.ToolInclusion | main.go:941-961 | git iff all or git; vim iff all or vim; each shell tool iff any of all/zsh/gvm/java/rust; gvm, sdkman, rustup iff all or their own flag |
| Planning.StepInclusion | main.go:941-967 | the git, vim, zsh and macOS steps are planned under the same flags as their tools; macOS iff all or macos |
| Planning.ZshStepWithZshTool | main.go:951-963 | the zsh step is planned exactly when zsh is among the tools |
| Planning.PlanOrder | main.go:941-961 | two planned tools appear in the plan in the order they have in the fixed tool order |
| Planning.DistinctToolOrder | main.go:941-961 | no tool appears twice in the fixed tool order |
| Planning.PlannedToolsDistinct | main.go:941-961 | no tool is planned twice |
| Installation.CheckPasses | main.go:476-498 | oh-my-zsh passes unless its directory definitely does not exist, so a failed probe passes; every other tool passes exactly when its name is on the PATH |
| Installation.InstallRouteFor | main.go:500-571 | oh-my-zsh by a script whose failure counts; gvm, sdkman and rustup by scripts whose failure is only logged; fzf, bat and eza by the binary installer; everything else by the package manager with the tool name appended, or the wrapped lookup error when there is none |
| Installation.InstallResult | main.go:500-571 | a lenient script never fails; a missing package manager always fails with its error; a failure of the oh-my-zsh script, the binary installer or the package manager's command becomes exactly that failure wrapped under the tool's install error, and no other error arises |
| Installation.VersionManagersNeverFail | main.go:516-547 | the gvm, sdkman and rustup install steps never fail |
| Installation.PackageRouteOnDarwin | main.go:558-566 | on Darwin git, vim, zsh and thefuck are installed with `brew install <tool>` |
| Binaries.FzfURL | main.go:336 | fzf's URL is the repository's download path for version 0.67.0 followed by `<os>_<arch>.tar.gz`, with Go's names for the OS and architecture, and nothing else |
| Binaries.BatURL | main.go:339 | bat's URL is the repository's download path for version 0.26.1 followed by `<triple>.tar.gz` for the OS and architecture, and nothing else |
| Binaries.EzaURL | main.go:342 | eza's URL is the repository's download path for version 0.23.4 followed by `<Linux triple>.tar.gz` for the architecture, and nothing else |
| Binaries.ReleaseURL | main.go:371-405 | every release URL names a `.tar.gz` archive; fzf's ends with the OS and architecture, bat's with the platform triple, eza's with the Linux triple |
| Binaries.ReleaseFor | main.go:371-436 | a release exists exactly for fzf and bat, and for eza on Linux, and it is a download |
| Binaries.ReleaseShape | main.go:371-433 | a release's URL and temporary file end in `.tar.gz`, the temporary file is `/tmp/<tool>.tar.gz` and the binary has the tool's name |
| Binaries.EzaPackageCommand | main.go:413-425 | under root with brew and a non-empty SUDO_USER the command is `sudo -u <user> brew <args> eza`, otherwise the manager's command with `eza` appended |
| Binaries.EzaViaPackageManager | main.go:406-411 | a plan for eza on Darwin is a command to run, not a download |
| Binaries.BinaryInstallPlan | main.go:357-442 | the OS error comes first; fzf and bat always get a plan; a download is the tool's release with a non-empty URL and the tool's binary name; a command plan only arises for eza on Darwin, and is the package-manager route; the empty-URL error never arises |
| Binaries.UnsupportedToolsRefused | main.go:434-436 | once the OS is known, a tool other than fzf, bat and eza is refused by name |
| Binaries.DownloadTargets | main.go:371-442 | fzf and bat everywhere, and eza on Linux, download their release URL to `/tmp/<tool>.tar.gz` |
| Binaries.EzaOnDarwin | main.go:406-431 | eza on Darwin runs `sudo -u <SUDO_USER> brew install eza` under root with SUDO_USER set, and `brew install eza` otherwise |
| Binaries.ExtractorFor | main.go:286-294 | tar exactly for `.tar.gz` or `.tgz` names, unzip exactly for other `.zip` names, nothing otherwise |
| Binaries.ExtractCommand | main.go:286-294 | `tar -xzf <archive> -C <dir>` for a tarball, `unzip -q <archive> -d <dir>` for a zip, and no command otherwise |
| Binaries.DownloadsAreTarballs | main.go:286-287 | every archive the installer downloads is unpacked with tar |
| Binaries.BinaryCandidateRule | main.go:301-302 | a walked file is taken exactly when it is not a directory, its name starts with the binary's name and one of the three execute bits is set |
| Binaries.TargetDir | main.go:362-369 | `~/.local/bin` when `/usr/local/bin` definitely does not exist and cannot be created, and `/usr/local/bin` otherwise |
| Binaries.DownloadCommands | main.go:262-321 | the curl download comes first, then the unpack command the suffix calls for, if any; without a found binary the install stops there with the not-found error and nothing is moved; otherwise it ends with the mv of the binary to the target and the chmod of the target, without error |
| Runner.RunAllSucceeds | main.go:973-990 | a fail-fast loop ends without error exactly when no step fails, and then every step has run in order |
| Runner.RunAllStopsAt | main.go:973-978 | the first failing step ends the loop with its error, after the steps before it and itself |
| Runner.InstallFailure | main.go:550-556 | for fzf, bat and eza a refusal of the binary installer is the install's failure; in every other case the failure is what the commands report |
| Runner.CheckAndInstall | main.go:574-588 | the check always comes first; an install is attempted exactly when the check fails; an error means the check failed and is the install step's error |
| Runner.MacosResult | main.go:881-892 | no error exactly on Darwin; a refusal on Linux; the OS error elsewhere |
| Runner.RunTools | main.go:973-978 | the tool loop equals the fail-fast run over the tool list |
| Runner.RunConfigs | main.go:985-990 | the configuration loop equals the fail-fast run over the step list |
| Runner.Bootstrap | main.go:907-990 | the method's error and trace equal the run specification |
| Runner.ToolEvents | main.go:973-978 | every event of the tool loop is a check or an install of a tool it was given, and an install means that tool's check failed |
| Runner.StepEvents | main.go:985-990 | every event of the configuration loop is a step it was given |
| Runner.UsageExactlyWhenIdle | main.go:909-912 | with nothing selected the run only prints usage; with something selected it never does |
| Runner.OnlySelectedToolsTouched | main.go:941-978 | only selected tools are checked, and only selected tools whose check failed are installed |
| Runner.ConfigOnlyAfterTools | main.go:973-990 | a configuration step runs only if it was selected and no tool step failed |
| Runner.ToolFailureEndsRun | main.go:973-978 | the first failing tool ends the run with its error: the tools up to it have run and no configuration step runs |
| Runner.SuccessfulRun | main.go:973-996 | a selected run succeeds exactly when every tool step and every step succeed, and then its trace is all tool steps followed by all configuration steps |
| Runner.SuccessfulRunChecksAll | main.go:973-979 | in a successful run every selected tool was checked |
| Runner.AllOnLinuxEndsWithMacosRefusal | main.go:881-891 | with `-all` on Linux, when every tool and every other step succeeds, the run ends with the macOS step's refusal |
| ConfigFiles.SkipAndWriteRules | main.go:616-627 | the skip rule (also at main.go:661, 705, 853) and the write rule (main.go:787, 809) are each other's negation except on a failed probe without `-f`, where neither holds; `-f` always writes; the .zshrc backup happens only when the file is not kept |
| ConfigFiles.ReplaceAll | main.go:865-868 | text that starts with the pattern starts with the replacement after replacing |
| ConfigFiles.ReplaceAllLength | main.go:865-868 | each replacement changes the length by the difference of the two strings' lengths |
| ConfigFiles.ReplaceAllSkips | main.go:865-868 | text without the pattern's first character is passed through unchanged |
| ConfigFiles.NoOccurrenceUnchanged | main.go:865-868 | text in which the pattern occurs at no position is left unchanged, and no occurrence is counted |
| ConfigFiles.ReplaceAllSplit | main.go:865-868 | when no occurrence straddles the boundary between two texts, replacing in their concatenation is replacing in each |
| ConfigFiles.ReplaceAllSelf | main.go:865-868 | replacing a pattern by itself changes nothing |
| ConfigFiles.ReplaceAllFront | main.go:865-868 | an occurrence at the front is replaced and the rest is processed after it |
| ConfigFiles.GitConfigText | main.go:863-869 | for every template, the content is the template with the user placeholder replaced by the user line and then the email placeholder replaced by the email line, where a line given no value is the placeholder itself |
| ConfigFiles.ConfigureGit | main.go:853-870 | an existing .gitconfig is kept exactly when the skip rule holds; otherwise the content written is the template with the given values filled in |
| ConfigFiles.OtherPlaceholderKept | main.go:864-869 | an occurrence of the other placeholder at the front of the text is passed through and the rest is processed after it |
| ConfigFiles.PlaceholderKeptAnywhere | main.go:864-869 | replacing one placeholder leaves the other in place wherever it stands, with the text before and after it processed each on its own |
| ConfigFiles.UserStep | main.go:864-866 | for a template with one user and one email placeholder and no other `{`, a given name turns the user placeholder into `name = <name>` and leaves the rest unchanged |
| ConfigFiles.EmailStep | main.go:867-868 | for a template with one email placeholder and no other `{` besides the user line, a given email turns the email placeholder into `email = <email>`, whether or not the user line was filled in |
| ConfigFiles.GitConfigFill | main.go:863-869 | for a template with one user and one email placeholder and no other `{`, and a name without `{`: the user placeholder becomes `name = <name>` only when a name is given, the email placeholder becomes `email = <email>` only when an email is given, and otherwise each stays verbatim |
| ConfigFiles.GitConfigDefaults | main.go:863-869 | with neither value given the template is written unchanged |
| ConfigFiles.CopyZshConfigFiles | main.go:655-694 | the copy loop's written files and error equal the copy specification |
| ConfigFiles.CopyWritesUnskipped | main.go:656-694 | the loop succeeds exactly when no unskipped write fails, and then it wrote exactly the files the skip rule does not keep, in order |
| ConfigFiles.ZshConfigCopy | main.go:655-694 | when no write fails, the zsh step writes, in this order and without error, those of `aliases.zsh`, `envs.zsh`, `function.zsh` and `fzf.zsh` that the skip rule does not keep; with `-f`, all four |
| ConfigFiles.ForceWritesAll | main.go:660-664 | with `-f` every file is written unless a write fails |
| ConfigFiles.EnvsDataFollowsPlan | main.go:679-684 | the template's Gvm, Java and Rust values are set exactly when gvm, sdkman and rustup are planned |

## Left out

- Process execution: curl, tar, unzip, mv, chmod, git clone, chsh, the install scripts, the package manager and `exec.LookPath`. Their outcomes are parameters (`runFailure`, `configure`, `writeErr`, the PATH set), and the shell scripts are kept only as the command strings handed to `bash -c`.
- Filesystem effects: `os.Stat` is a `StatResult` input, and writes, `MkdirAll`, `Rename` backups, `RemoveAll` and the temporary-file cleanup are not modelled. The `filepath.Walk` traversal order is not modelled; only the rule that picks the binary is.
- `getRealUser` and `chownIfNeeded` (main.go:181-230): they depend on user lookups and the environment.
- `text/template` execution of `envs.zsh` (main.go:673-689): only the values passed to the template are modelled, not the engine, its parse and execute errors, or its output.
- Flag parsing, `slog` logging, ANSI output, the enabled-configs summary (main.go:914-927) and the dry-run short-circuits: these are presentation or I/O toggles.
- `macosCustomize`'s brew calls (main.go:898-901): their errors are ignored, so only the OS guard is modelled.
- The zsh step's theme, plugin and default-shell parts (main.go:697-766), and the vim step's vim-plug download (main.go:804-831): these are I/O around the skip and write rules, which are modelled.
- Runner.CheckAndInstall: the check's home-directory error (main.go:480-483) is left out; the check is decided by the PATH and the oh-my-zsh probe alone.
- Binaries.BinaryInstallPlan: the home-directory error that precedes the OS check (main.go:353-356) is left out.
- ConfigFiles.ConfigureGit: the home-directory error, the embedded-file read error and the write error (main.go:846-849, 858-861, 871-873) are left out; the method decides only between keeping the file and the content to write.
- ConfigFiles.CopyZshConfigFiles: a failed read of an embedded file, which the program skips (main.go:667-671), is left out, as are the `.zshrc` copy and the directory creation before the loop.
- ConfigFiles.ReplaceAll: defined for a non-empty pattern only. The two placeholders the program replaces are non-empty, and `strings.ReplaceAll` with an empty pattern is not used.
- Binaries.DownloadCommands: the target path is written `<dir>/<name>` rather than `filepath.Join`'s cleaned path (main.go:314), and the failure of an individual command in the sequence is not modelled; the tool's install failure comes in as `runFailure` instead.
- ConfigFiles.UserStep: stated only for templates with no `{` besides the two placeholders; `ConfigFiles.GitConfigText` states the content for every template.
- ConfigFiles.EmailStep: stated only for templates with no `{` besides the two placeholders; `ConfigFiles.GitConfigText` states the content for every template.
- ConfigFiles.GitConfigFill: stated only for templates with no `{` besides the two placeholders and names without `{`; `ConfigFiles.GitConfigText` states the content for every template and name.
- Platform.GetPackageManager: the PATH lookup is membership of the command name in a set, not a search of directories.
