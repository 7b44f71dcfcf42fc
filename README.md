# setup-mariadb, modelled in Dafny

setup-mariadb is a CI action that installs and starts a MariaDB server on
a GitHub Actions runner. Its whole behaviour lives in `index.js`. The script
does four things in order:

1. It reads the requested version, or falls back to the default long-term
   release. It rejects any tag outside the supported list.
2. It runs exactly one platform branch:
   - macOS: Homebrew.
   - Windows: the MSI installer.
   - Any other platform: apt from the MariaDB repository.
3. Each branch issues a fixed sequence of shell commands and sets `bin`, the
   server's directory. The macOS and Windows branches also add `bin` to the
   runner's PATH.
4. Optionally, it creates a database with `mysqladmin`.

The model is in three files:

- `wrappers.dfy` holds `Option` and `Result`.
- `setup_mariadb.dfy` (module `SetupMariaDB`) holds the model itself:
  - The script's inputs are an `Env` value: the platform, the architecture,
    the `INPUT_MARIADB-VERSION`, `INPUT_DATABASE` and `ImageOS` variables, the
    files that exist, and the OS-release codename.
  - Each call to `run`, `runSafe` or `addToPath` becomes an `Event` in a
    trace.
  - Each command line is a `Command` value. `Render` gives its exact shell
    text.
  - The top-level script is the method `Setup`, built from one method per
    branch. It appends events to a trace the way the script calls `run`.
    Each method is proved equal to a specification function: `PlanFor`, or
    `MacPlan`, `WindowsPlan` and `LinuxPlan` for the branches.
  - `Execute` models the script's fail-fast execution. Every call is
    synchronous, and the first failing effect aborts the run.
  - JavaScript truthiness of an environment variable (set and non-empty) is
    `Truthy`.
  - The `switch` in `ubuntuReleaseName` is a first-match scan over a case
    list (`SwitchIndex`).
- `properties.dfy` (module `SetupMariaDBProperties`) proves what the script
  promises about those functions:
  - version validation and the default version;
  - the commands and their order in each branch;
  - `bin` and PATH;
  - the version table;
  - the apt package and the sources command;
  - the codename lookup and its dead case;
  - the database step;
  - failure behaviour.

Two places where the code does something other than what its own names and
guards suggest was intended; the model follows the code:

- The switch in `ubuntuReleaseName` tests the labels `image20`/`image22`,
  while runners report `ubuntu20`/`ubuntu22`/`ubuntu24`. So on every managed
  Ubuntu image the suite comes from `/etc/os-release`, not from the table.
  Its second `image20` case (`noble`) can never be selected.
  `ReleaseNameLookup` and `ShadowedCaseNeverSelected` state both facts.
- The macOS grant commands are gated on version `10.3`, but `10.3` is not a
  supported version. Validation rejects it before any branch runs, so those
  commands are never issued. `LegacyVersionRejected` and `NoLegacyGrants`
  state this.

## Model

| member | source | states |
|---|---|---|
| SetupMariaDB.Setup | index.js:46-159 | The script's whole run (validate, one platform branch, optional database step) produces exactly the plan `PlanFor` specifies: the same error, or the same effects in the same order and the same `bin`. |
| SetupMariaDB.MacBranch | index.js:63-83 | The macOS branch's issued commands, PATH entry and `bin` equal `MacPlan`. |
| SetupMariaDB.WindowsBranch | index.js:84-107 | The Windows branch's issued commands, PATH entry and `bin` equal `WindowsPlan`. |
| SetupMariaDB.LinuxBranch | index.js:108-155 | The branch for every other platform issues the commands `LinuxPlan` specifies and sets `bin` to /usr/bin. |
| SetupMariaDB.SelectBranch | index.js:31-37 | The macOS branch runs iff the platform is `darwin`, the Windows branch iff it is `win32`, the third branch iff it is neither. |
| SetupMariaDB.SwitchIndex | index.js:118-127 | The selected case index, if any, is a valid case index. |
| SetupMariaDB.SwitchIndexFirstMatch | index.js:118-127 | A switch selects the first case whose label strictly equals the key; it falls to `default` iff no label equals the key. |
| SetupMariaDB.Execute | index.js:8-25 | Effects run in order and the first failure aborts the script: what happened is a prefix of the plan; there is no error iff no effect failed, and then every effect happened; otherwise the failing effect is the last one that happened and is the reported error. |
| SetupMariaDBProperties.SupportedVersionSet | index.js:46-52 | The supported versions are exactly 11.4, 10.11, 10.6, 10.5, 11.2, 11.1 and 11.5, and the default is 11.4, the first long-term version. |
| SetupMariaDBProperties.UnsetVersionUsesDefault | index.js:52-57 | An unset or empty version input resolves to 11.4 and passes validation. |
| SetupMariaDBProperties.InvalidVersionRejected | index.js:53-57 | Validation fails iff the resolved version is unsupported; then the input was a non-empty tag, the error names it with the message "Invalid MariaDB version: …", and nothing at all is executed. |
| SetupMariaDBProperties.LegacyVersionRejected | index.js:55-57 | Requesting 10.3 is rejected by validation. |
| SetupMariaDBProperties.MacEventsFamily | index.js:63-83 | The macOS branch issues only macOS commands. |
| SetupMariaDBProperties.MacEventsNoSpawn | index.js:63-83 | The macOS branch spawns no process through `runSafe`. |
| SetupMariaDBProperties.MacEventsPath | index.js:74-77 | The macOS branch adds exactly `bin` to PATH. |
| SetupMariaDBProperties.MacEventsUpdate | index.js:65-67 | `brew update` is issued iff the formula is absent from the local tap, and then it is the first command. |
| SetupMariaDBProperties.MacEventsGrants | index.js:80-83 | The anonymous grant and its flush are issued iff the legacy condition holds: with it they are the last two effects, right after `bin` is added to PATH; without it adding `bin` to PATH is the last effect. |
| SetupMariaDBProperties.WindowsEventsFamily | index.js:84-107 | The Windows branch issues only Windows commands. |
| SetupMariaDBProperties.WindowsEventsNoSpawn | index.js:84-107 | The Windows branch spawns no process through `runSafe`. |
| SetupMariaDBProperties.WindowsEventsPath | index.js:101-102 | The Windows branch adds exactly `bin` to PATH. |
| SetupMariaDBProperties.WindowsEventsDownload | index.js:97-98 | The installer download uses the full version that the table lookup returned. |
| SetupMariaDBProperties.LinuxEventsFamily | index.js:108-155 | The third branch issues only its own commands (apt, systemctl, mysql). |
| SetupMariaDBProperties.LinuxEventsNoSpawn | index.js:108-155 | The third branch spawns no process through `runSafe`. |
| SetupMariaDBProperties.LinuxEventsPath | index.js:108-155 | The third branch never adds anything to PATH. |
| SetupMariaDBProperties.LinuxEventsClean | index.js:110-114 | Stopping mysql.service and removing /var/lib/mysql happen iff the image is managed, and then they are the first two effects. |
| SetupMariaDBProperties.LinuxEventsInstall | index.js:130-140 | Exactly one package is installed, the given one; exactly one sources command is issued, for the given version and suite. |
| SetupMariaDBProperties.SuccessfulPlan | index.js:55-159 | Unfolding of `PlanFor` for use by the other lemmas: a successful plan is the selected branch's effects followed by the database step, with the branch's `bin`. |
| SetupMariaDBProperties.PlatformBranchesExclusive | index.js:63-155 | Every command of a successful plan belongs to the one branch that the platform selects. |
| SetupMariaDBProperties.BinPerPlatform | index.js:61-155 | `bin` is the Homebrew opt directory of the formula on macOS, the Program Files directory of the version on Windows, and /usr/bin otherwise; a directory is added to PATH iff the platform is macOS or Windows and the directory is `bin`. |
| SetupMariaDBProperties.VersionMapComplete | index.js:88-96 | The version table covers exactly the supported versions, and each full version extends its tag with a dot. |
| SetupMariaDBProperties.DownloadUrlDefined | index.js:97-98 | Every download command of a successful plan has a defined full version (never `undefined`) that extends the resolved tag. |
| SetupMariaDBProperties.RenderedDownloadUrl | index.js:98 | The rendered curl command downloads from the MariaDB archive a release of the requested tag. |
| SetupMariaDBProperties.InstallPackageBare | index.js:139 | The package is the bare `mariadb-server` iff the version is 11.5, 11.4, 11.2, 11.1 or 10.11, and otherwise it is `mariadb-server-` followed by the version. |
| SetupMariaDBProperties.SupportedPackageNames | index.js:139 | Among supported versions only 10.6 and 10.5 get a suffixed package, `mariadb-server-10.6` and `mariadb-server-10.5`. |
| SetupMariaDBProperties.LinuxInstallsPackage | index.js:139-140 | On the third branch the one package installed is the package name for the resolved version. |
| SetupMariaDBProperties.CleanStateOnManagedImages | index.js:108-114 | A successful plan stops the preinstalled MySQL and wipes its data iff the platform takes the third branch on a managed Ubuntu image, and then these are its first two effects. |
| SetupMariaDBProperties.ShadowedCaseNeverSelected | index.js:118-124 | A case whose label repeats an earlier case's label is never selected. |
| SetupMariaDBProperties.ReleaseNameLookup | index.js:117-128 | `image20` gives focal and `image22` gives jammy; the second `image20` case (noble) is dead; every other image, the managed `ubuntuNN` labels included, takes the OS-release codename. |
| SetupMariaDBProperties.NobleOnlyFromOsRelease | index.js:123-126 | The suite can be `noble` only when the OS-release codename is `noble`. |
| SetupMariaDBProperties.LinuxSourcesEntry | index.js:130-137 | The sources command (the heredoc piped to `tee`) names exactly the resolved version and the looked-up suite. Whether the shell then writes the file is not modelled. |
| SetupMariaDBProperties.HomebrewPrefixes | index.js:40-74 | Homebrew's prefix is a prefix of the tap's location; both are /opt/homebrew iff the architecture is arm64, and otherwise they are /usr/local/Homebrew for the tap and /usr/local for Homebrew's prefix. |
| SetupMariaDBProperties.FormulaFileLetter | index.js:42 | The formula file of any version is looked up under the tap's `m` directory. |
| SetupMariaDBProperties.BrewUpdateIffFormulaAbsent | index.js:39-67 | On macOS, `brew update` is issued iff neither the formula file nor its alias exists in the tap, and then it comes first. |
| SetupMariaDBProperties.NoLegacyGrants | index.js:55-83 | No successful plan issues the anonymous grant or its flush. |
| SetupMariaDBProperties.DatabaseStepIffNamed | index.js:157-159 | A process is spawned iff a non-empty database name is given, and then the last effect is `mysqladmin create <name>`, run from `bin`. |
| SetupMariaDBProperties.PlatformPlanNoSpawn | index.js:63-155 | No platform branch spawns a process of its own. |
| SetupMariaDBProperties.FirstFailureAborts | index.js:8-25 | Unfolding of `Execute` through `RunSetup` for a successful plan: if effect k fails, exactly the first k+1 effects happen and the run ends with that effect's failure; with no failure every effect happens. |
| SetupMariaDBProperties.DatabaseFailureObservable | index.js:157-158 | A failing `mysqladmin create` is reported as the run's error after every earlier effect has happened. |
| SetupMariaDBProperties.ManagedLinuxEvents | index.js:110-151 | Unfolding of `LinuxEvents` for a managed image, as a list: the third branch issues eleven commands in this order: stop the service, wipe the data, add the signing key, write the source, update, install, start, clear the root password, create the user, grant, and flush. |
| SetupMariaDBProperties.Ubuntu22DefaultScenario | index.js:46-159 | On Linux x64 with ImageOS ubuntu22 and no inputs, the plan is those eleven commands for version 11.4, with the OS-release codename as the suite and the package `mariadb-server`, and `bin` is /usr/bin. |

## Left out

- Process execution: `execSync` and `spawnSync` are not modelled beyond their effect being recorded. Whether a step fails is a parameter (`failAt`) of `Execute`.
- The environment copy that `run` prepares is not modelled: it drops `CI` and sets `HOMEBREW_NO_INSTALLED_DEPENDENTS_CHECK` (index.js:10-12).
- `console.log` echoing is not modelled: it has no effect on the outcome.
- The Windows temporary directory is not modelled (`mkdtempSync` and `chdir`, index.js:86-87). It decides where `mariadb.msi` lands. If either call throws, the Windows branch aborts before its first effect; `Execute` has no position for that failure.
- `addToPath` appends to the file named by `GITHUB_PATH`. Only the appended directory is recorded. A failure of that write (for example, `GITHUB_PATH` unset) counts as a failing effect at that position.
- The OS-release codename is an input string (`Env.osReleaseCodename`). The script reads it lazily with `execSync` while it builds the sources command (index.js:126, 134). A failure of that read is not modelled, and `execSync`'s Buffer is taken as its text, trailing newline included.
- `path.join` normalisation is not modelled. `JoinPath` only joins with the platform separator, which is what `path.join` yields for `bin` directories: they have no trailing separator and no `.` or `..` segments.
- `runSafe` does not separate a process that could not be launched from one that exited non-zero (index.js:22-23). Both are one `CommandFailed`. The thrown value in the second case is `undefined`, and that is not modelled.
- The network, Homebrew, msiexec, apt and the MariaDB server are not modelled. Their behaviour stays outside the script.
- `ErrorMessage` gives a failed effect the fixed placeholder text "Command failed". The script rethrows whatever `execSync` or `spawnSync` reports (for `runSafe` often `undefined`), and that value is not modelled.
- The shell's reading of the sources command is not modelled (index.js:130-137). Its heredoc ends in the line `EOF | sudo tee …`, which is not a line holding only `EOF`. `Render` gives the text, and `WriteSources` records that the command is issued. Whether a sources file is written is outside the model.
