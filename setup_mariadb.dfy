/**
 * The decision logic of the setup-mariadb CI action (index.js): from the
 * runner's platform, architecture, requested version, managed-image label,
 * Homebrew checkout and optional database name, it decides which commands to
 * issue, in which order, and which directory to add to the runner's PATH.
 *
 * Every external effect of the script is an `Event` in a trace: a shell
 * command issued through `run` (execSync), a process spawned through
 * `runSafe` (spawnSync), or a line appended to the GITHUB_PATH file through
 * `addToPath`. Nothing is executed; the environment the script reads is an
 * `Env` value.
 */
module SetupMariaDB {
  import opened Wrappers

  // ---------------------------------------------------------------------------
  // Inputs

  /** What the script reads from its environment. */
  datatype Env = Env(
    platform: string,            // process.platform
    arch: string,                // process.arch
    versionInput: Option<string>, // INPUT_MARIADB-VERSION
    database: Option<string>,    // INPUT_DATABASE
    imageOS: Option<string>,     // ImageOS
    files: set<string>,          // the paths for which fs.existsSync holds
    osReleaseCodename: string)   // output of `. /etc/os-release && echo $VERSION_CODENAME`

  /** JavaScript truthiness of an environment variable: set and non-empty. */
  predicate Truthy(v: Option<string>) {
    v.Some? && v.value != ""
  }

  // ---------------------------------------------------------------------------
  // Versions

  const RollingReleaseVersions: seq<string> := ["11.5"]
  const LongTermVersions: seq<string> := ["11.4", "10.11", "10.6", "10.5"]
  const ShortTermVersions: seq<string> := ["11.2", "11.1"]

  const SupportedVersions: seq<string> := LongTermVersions + ShortTermVersions + RollingReleaseVersions

  /** The latest long-term release, used when no version is requested. */
  const DefaultVersion: string := LongTermVersions[0]

  /** `process.env['INPUT_MARIADB-VERSION'] || defaultVersion` */
  function ResolveVersion(input: Option<string>): string {
    if Truthy(input) then input.value else DefaultVersion
  }

  predicate IsSupported(version: string) {
    version in SupportedVersions
  }

  /** The Windows table from short tag to full release number. */
  const VersionMap: map<string, string> := map[
    "11.5" := "11.5.2",
    "11.4" := "11.4.3",
    "11.2" := "11.2.5",
    "11.1" := "11.1.6",
    "10.11" := "10.11.9",
    "10.6" := "10.6.19",
    "10.5" := "10.5.26"
  ]

  /** `versionMap[mariadbVersion]`; `None` stands for JavaScript's `undefined`. */
  function FullVersion(version: string): Option<string> {
    if version in VersionMap then Some(VersionMap[version]) else None
  }

  /** The versions whose Linux package is the bare `mariadb-server`. */
  const BarePackageVersions: seq<string> := ["11.5", "11.4", "11.2", "11.1", "10.11"]

  /** `install_package`: the apt package to install for a version. */
  function InstallPackage(version: string): string {
    if version in BarePackageVersions then "mariadb-server" else "mariadb-server-" + version
  }

  // ---------------------------------------------------------------------------
  // Platforms

  predicate IsMac(platform: string) {
    platform == "darwin"
  }

  predicate IsWindows(platform: string) {
    platform == "win32"
  }

  /** The three mutually exclusive procedures; `Linux` is every platform other than the two named ones. */
  datatype Branch = MacOS | Windows | Linux

  /** The branch the `if (isMac()) … else if (isWindows()) … else …` chain takes. */
  function SelectBranch(platform: string): (b: Branch)
    ensures b == MacOS <==> IsMac(platform)
    ensures b == Windows <==> IsWindows(platform)
    ensures b == Linux <==> !IsMac(platform) && !IsWindows(platform)
  {
    if IsMac(platform) then MacOS else if IsWindows(platform) then Windows else Linux
  }

  // ---------------------------------------------------------------------------
  // Paths

  /** Where the homebrew-core tap is checked out. */
  function TapPrefix(arch: string): string {
    if arch == "arm64" then "/opt/homebrew" else "/usr/local/Homebrew"
  }

  function Tap(arch: string): string {
    TapPrefix(arch) + "/Library/Taps/homebrew/homebrew-core"
  }

  /** `formula[0]` as it reads in a template string: `undefined` for an empty formula. */
  function FirstChar(formula: string): string {
    if |formula| > 0 then [formula[0]] else "undefined"
  }

  function FormulaFile(arch: string, formula: string): string {
    Tap(arch) + "/Formula/" + FirstChar(formula) + "/" + formula + ".rb"
  }

  function AliasFile(arch: string, formula: string): string {
    Tap(arch) + "/Aliases/" + formula
  }

  /** `formulaPresent`: the formula file or its alias exists in the local tap. */
  predicate FormulaPresent(files: set<string>, arch: string, formula: string) {
    FormulaFile(arch, formula) in files || AliasFile(arch, formula) in files
  }

  /** Homebrew's installation prefix. */
  function BrewPrefix(arch: string): string {
    if arch == "arm64" then "/opt/homebrew" else "/usr/local"
  }

  function MacBin(arch: string, formula: string): string {
    BrewPrefix(arch) + "/opt/" + formula + "/bin"
  }

  function WindowsBin(version: string): string {
    "C:\\Program Files\\MariaDB " + version + "\\bin"
  }

  const LinuxBin: string := "/usr/bin"

  /** `path.join(dir, name)` with the host's separator, on directories that need no normalising. */
  function JoinPath(platform: string, dir: string, name: string): string {
    if IsWindows(platform) then dir + "\\" + name else dir + "/" + name
  }

  // ---------------------------------------------------------------------------
  // The Ubuntu codename lookup

  /** One `case tag: return result;` of a JavaScript switch. */
  datatype Case = Case(tag: string, result: string)

  /**
   * The index of the case a JavaScript switch on `key` selects, scanning the
   * cases in order (`SwitchIndexFirstMatch` says which one that is).
   */
  function SwitchIndex(cases: seq<Case>, key: Option<string>): (r: Option<nat>)
    ensures r.Some? ==> r.value < |cases|
  {
    if |cases| == 0 then None
    else if key == Some(cases[0].tag) then Some(0)
    else
      match SwitchIndex(cases[1..], key)
      case None => None
      case Some(i) => Some(i + 1)
  }

  /**
   * A switch selects the first case whose tag is strictly equal to the key,
   * and falls to `default` when none is (an unset key equals no tag).
   */
  lemma {:induction false} SwitchIndexFirstMatch(cases: seq<Case>, key: Option<string>)
    ensures var r := SwitchIndex(cases, key);
            r.Some? ==> key == Some(cases[r.value].tag)
                        && forall k :: 0 <= k < r.value ==> key != Some(cases[k].tag)
    ensures SwitchIndex(cases, key).None? <==> forall k :: 0 <= k < |cases| ==> key != Some(cases[k].tag)
  {
    if |cases| > 0 && key != Some(cases[0].tag) {
      SwitchIndexFirstMatch(cases[1..], key);
      assert forall k :: 1 <= k < |cases| ==> cases[k] == cases[1..][k - 1];
    }
  }

  /** The cases of `ubuntuReleaseName`, in source order, duplicate tag included. */
  const ReleaseNameCases: seq<Case> := [
    Case("image20", "focal"),
    Case("image22", "jammy"),
    Case("image20", "noble")
  ]

  /** `ubuntuReleaseName()`: the table's codename, or the OS-release one by default. */
  function UbuntuReleaseName(image: Option<string>, osReleaseCodename: string): string {
    match SwitchIndex(ReleaseNameCases, image)
    case Some(i) => ReleaseNameCases[i].result
    case None => osReleaseCodename
  }

  /** The GitHub-hosted Ubuntu images whose preinstalled MySQL is wiped first. */
  predicate IsManagedUbuntu(image: Option<string>) {
    image == Some("ubuntu20") || image == Some("ubuntu22") || image == Some("ubuntu24")
  }

  // ---------------------------------------------------------------------------
  // Commands and the trace

  /** Every command line the script hands to `run`. */
  datatype Command =
    // macOS
    | BrewUpdate
    | BrewInstall(formula: string)
    | MysqlServerStart(bin: string)
    | GrantAnonymous(bin: string)
    | FlushMac(bin: string)
    // Windows
    | DownloadMsi(fullVersion: Option<string>)
    | MsiInstall
    | CreateRunnerAdmin(bin: string)
    | GrantRunnerAdmin(bin: string)
    | FlushWindows(bin: string)
    // every other platform
    | StopMysqlService
    | RemoveDataDir
    | AddSigningKey
    | WriteSources(version: string, suite: string)
    | AptUpdate
    | AptInstall(package: string)
    | StartMariadb
    | ClearRootPassword
    | CreateCurrentUser
    | GrantCurrentUser
    | FlushLinux

  /** The branch of the script that issues a command. */
  function FamilyOf(c: Command): Branch {
    match c
    case BrewUpdate | BrewInstall(_) | MysqlServerStart(_) | GrantAnonymous(_) | FlushMac(_) => MacOS
    case DownloadMsi(_) | MsiInstall | CreateRunnerAdmin(_) | GrantRunnerAdmin(_) | FlushWindows(_) => Windows
    case _ => Linux
  }

  /** The shell text of a command, as the script passes it to execSync. */
  function Render(c: Command): string {
    match c
    case BrewUpdate => "brew update"
    case BrewInstall(formula) => "brew install " + formula
    case MysqlServerStart(bin) => bin + "/mysql.server start"
    case GrantAnonymous(bin) => bin + "/mysql -u root -e \"GRANT ALL PRIVILEGES ON *.* TO ''@'localhost'\""
    case FlushMac(bin) => bin + "/mysql -u root -e \"FLUSH PRIVILEGES\""
    case DownloadMsi(full) =>
      var f := if full.Some? then full.value else "undefined";
      "curl -Ls -o mariadb.msi https://downloads.mariadb.com/MariaDB/mariadb-" + f
        + "/winx64-packages/mariadb-" + f + "-winx64.msi"
    case MsiInstall => "msiexec /i mariadb.msi SERVICENAME=MariaDB /qn"
    case CreateRunnerAdmin(bin) =>
      "\"" + bin + "\\mysql\" -u root -e \"CREATE USER 'runneradmin'@'localhost' IDENTIFIED BY ''\""
    case GrantRunnerAdmin(bin) =>
      "\"" + bin + "\\mysql\" -u root -e \"GRANT ALL PRIVILEGES ON *.* TO 'runneradmin'@'localhost'\""
    case FlushWindows(bin) => "\"" + bin + "\\mysql\" -u root -e \"FLUSH PRIVILEGES\""
    case StopMysqlService => "sudo systemctl stop mysql.service"
    case RemoveDataDir => "sudo rm -rf /var/lib/mysql"
    case AddSigningKey => "sudo apt-key adv --recv-keys --keyserver hkp://keyserver.ubuntu.com:80 0xF1656F24C74CD1D8"
    case WriteSources(version, suite) =>
      "cat << EOF\nX-Repolib-Name: MariaDB\nTypes: deb\nURIs: https://deb.mariadb.org/" + version
        + "/ubuntu\nSuites: " + suite
        + "\nComponents: main main/debug\nSigned-By: /etc/apt/keyrings/mariadb-keyring.pgp\nEOF | sudo tee /etc/apt/sources.list.d/mariadb.sources"
    case AptUpdate =>
      "sudo apt-get update -o Dir::Etc::sourcelist=\"sources.list.d/mariadb.sources\" -o Dir::Etc::sourceparts=\"-\" -o APT::Get::List-Cleanup=\"0\""
    case AptInstall(package) => "sudo apt-get install " + package
    case StartMariadb => "sudo systemctl start mariadb"
    case ClearRootPassword => "sudo mysqladmin -proot password ''"
    case CreateCurrentUser => "sudo mysql -e \"CREATE USER '$USER'@'localhost' IDENTIFIED BY ''\""
    case GrantCurrentUser => "sudo mysql -e \"GRANT ALL PRIVILEGES ON *.* TO '$USER'@'localhost'\""
    case FlushLinux => "sudo mysql -e \"FLUSH PRIVILEGES\""
  }

  /** One external effect of the script. */
  datatype Event =
    | Exec(command: Command)                 // run(command)
    | Spawn(file: string, args: seq<string>) // runSafe(file, ...args)
    | AddToPath(dir: string)                 // addToPath(dir)

  /** The effects the script issues when every command succeeds, and the final value of `bin`. */
  datatype Plan = Plan(events: seq<Event>, bin: string)

  datatype SetupError =
    | InvalidVersion(version: string) // the string thrown at index.js:56
    | CommandFailed(event: Event)     // the first effect that exited non-zero

  /**
   * The message the script throws for an unsupported version. A failed
   * effect gets a fixed placeholder: the script itself rethrows whatever
   * `execSync` or `spawnSync` reports, which the model does not capture.
   */
  function ErrorMessage(e: SetupError): string {
    match e
    case InvalidVersion(v) => "Invalid MariaDB version: " + v
    case CommandFailed(_) => "Command failed"
  }

  // ---------------------------------------------------------------------------
  // The planner, as functions: the specification of `Setup`

  /**
   * The macOS effects (index.js:63-83), given the branch's decisions: whether
   * the formula is already in the local tap, the formula, `bin`, and whether
   * the legacy privilege grants apply.
   */
  function MacEvents(formulaPresent: bool, formula: string, bin: string, legacyGrants: bool): seq<Event> {
    var started := (if formulaPresent then [] else [Exec(BrewUpdate)])
                   + [Exec(BrewInstall(formula))]
                   + [Exec(MysqlServerStart(bin))]
                   + [AddToPath(bin)];
    if legacyGrants then started + [Exec(GrantAnonymous(bin))] + [Exec(FlushMac(bin))] else started
  }

  function MacPlan(env: Env, version: string): Plan {
    var formula := "mariadb@" + version;
    var bin := MacBin(env.arch, formula);
    Plan(MacEvents(FormulaPresent(env.files, env.arch, formula), formula, bin, version == "10.3"), bin)
  }

  /** The Windows effects (index.js:84-107), given the looked-up full version and `bin`. */
  function WindowsEvents(fullVersion: Option<string>, bin: string): seq<Event> {
    [Exec(DownloadMsi(fullVersion))]
      + [Exec(MsiInstall)]
      + [AddToPath(bin)]
      + [Exec(CreateRunnerAdmin(bin))]
      + [Exec(GrantRunnerAdmin(bin))]
      + [Exec(FlushWindows(bin))]
  }

  function WindowsPlan(version: string): Plan {
    Plan(WindowsEvents(FullVersion(version), WindowsBin(version)), WindowsBin(version))
  }

  /** index.js:110-114: stop the preinstalled server and wipe its data, on a managed image. */
  function ClearPreviousData(managedImage: bool): seq<Event> {
    if managedImage then [Exec(StopMysqlService), Exec(RemoveDataDir)] else []
  }

  /**
   * The effects of the branch for every other platform (index.js:108-155),
   * given whether the image is a managed one, the version, the apt suite and
   * the package name.
   */
  function LinuxEvents(managedImage: bool, version: string, suite: string, package: string): seq<Event> {
    ClearPreviousData(managedImage)
      + [Exec(AddSigningKey)]
      + [Exec(WriteSources(version, suite))]
      + [Exec(AptUpdate)]
      + [Exec(AptInstall(package))]
      + [Exec(StartMariadb)]
      + [Exec(ClearRootPassword)]
      + [Exec(CreateCurrentUser)]
      + [Exec(GrantCurrentUser)]
      + [Exec(FlushLinux)]
  }

  function LinuxPlan(image: Option<string>, osReleaseCodename: string, version: string): Plan {
    Plan(LinuxEvents(IsManagedUbuntu(image), version, UbuntuReleaseName(image, osReleaseCodename),
                     InstallPackage(version)),
         LinuxBin)
  }

  function PlatformPlan(env: Env, version: string): Plan {
    match SelectBranch(env.platform)
    case MacOS => MacPlan(env, version)
    case Windows => WindowsPlan(version)
    case Linux => LinuxPlan(env.imageOS, env.osReleaseCodename, version)
  }

  /** `if (database) runSafe(path.join(bin, 'mysqladmin'), 'create', database)` */
  function DatabaseSteps(platform: string, bin: string, database: Option<string>): seq<Event> {
    if Truthy(database) then [Spawn(JoinPath(platform, bin, "mysqladmin"), ["create", database.value])] else []
  }

  /** The whole script: validate the version, run one platform branch, then the database step. */
  function PlanFor(env: Env): Result<Plan, SetupError> {
    var version := ResolveVersion(env.versionInput);
    if !IsSupported(version) then Failure(InvalidVersion(version))
    else
      var p := PlatformPlan(env, version);
      Success(Plan(p.events + DatabaseSteps(env.platform, p.bin, env.database), p.bin))
  }

  // ---------------------------------------------------------------------------
  // The planner, step by step as the script runs

  /** index.js:63-83: the macOS branch issues its commands and sets `bin`. */
  method MacBranch(env: Env, version: string) returns (trace: seq<Event>, bin: string)
    ensures Plan(trace, bin) == MacPlan(env, version)
  {
    trace := [];
    var formula := "mariadb@" + version;
    if !FormulaPresent(env.files, env.arch, formula) {
      trace := trace + [Exec(BrewUpdate)];
    }
    trace := trace + [Exec(BrewInstall(formula))];
    bin := BrewPrefix(env.arch) + "/opt/" + formula + "/bin";
    trace := trace + [Exec(MysqlServerStart(bin))];
    trace := trace + [AddToPath(bin)];
    if version == "10.3" {
      trace := trace + [Exec(GrantAnonymous(bin))];
      trace := trace + [Exec(FlushMac(bin))];
    }
  }

  /** index.js:84-107: the Windows branch issues its commands and sets `bin`. */
  method WindowsBranch(version: string) returns (trace: seq<Event>, bin: string)
    ensures Plan(trace, bin) == WindowsPlan(version)
  {
    trace := [];
    var fullVersion := if version in VersionMap then Some(VersionMap[version]) else None;
    trace := trace + [Exec(DownloadMsi(fullVersion))];
    trace := trace + [Exec(MsiInstall)];
    bin := "C:\\Program Files\\MariaDB " + version + "\\bin";
    trace := trace + [AddToPath(bin)];
    trace := trace + [Exec(CreateRunnerAdmin(bin))];
    trace := trace + [Exec(GrantRunnerAdmin(bin))];
    trace := trace + [Exec(FlushWindows(bin))];
  }

  /** index.js:108-155: the branch for every other platform issues its commands and sets `bin`. */
  method LinuxBranch(image: Option<string>, osReleaseCodename: string, version: string)
    returns (trace: seq<Event>, bin: string)
    ensures Plan(trace, bin) == LinuxPlan(image, osReleaseCodename, version)
  {
    trace := [];
    if image == Some("ubuntu20") || image == Some("ubuntu22") || image == Some("ubuntu24") {
      trace := trace + [Exec(StopMysqlService)];
      trace := trace + [Exec(RemoveDataDir)];
    }
    assert trace == ClearPreviousData(IsManagedUbuntu(image));
    trace := trace + [Exec(AddSigningKey)];
    trace := trace + [Exec(WriteSources(version, UbuntuReleaseName(image, osReleaseCodename)))];
    trace := trace + [Exec(AptUpdate)];
    var package := InstallPackage(version);
    trace := trace + [Exec(AptInstall(package))];
    trace := trace + [Exec(StartMariadb)];
    trace := trace + [Exec(ClearRootPassword)];
    trace := trace + [Exec(CreateCurrentUser)];
    trace := trace + [Exec(GrantCurrentUser)];
    trace := trace + [Exec(FlushLinux)];
    bin := "/usr/bin";
  }

  /**
   * The top level of index.js: validate the version, run one platform
   * branch, then create the database if one is named. Each `run`, `runSafe`
   * and `addToPath` call appends its effect to the trace.
   */
  method Setup(env: Env) returns (r: Result<Plan, SetupError>)
    ensures r == PlanFor(env)
  {
    var version := ResolveVersion(env.versionInput);
    if !IsSupported(version) {
      return Failure(InvalidVersion(version));
    }

    var trace: seq<Event>;
    var bin: string;
    if IsMac(env.platform) {
      trace, bin := MacBranch(env, version);
    } else if IsWindows(env.platform) {
      trace, bin := WindowsBranch(version);
    } else {
      trace, bin := LinuxBranch(env.imageOS, env.osReleaseCodename, version);
    }
    ghost var platformEvents := trace;

    if env.database.Some? && env.database.value != "" {
      trace := trace + [Spawn(JoinPath(env.platform, bin, "mysqladmin"), ["create", env.database.value])];
    } else {
      assert trace == platformEvents + [];
    }
    return Success(Plan(trace, bin));
  }

  // ---------------------------------------------------------------------------
  // Running the plan: every step is synchronous and the first failure aborts

  /** What the caller observes: the effects that happened and the error, if any. */
  datatype Report = Report(effects: seq<Event>, error: Option<SetupError>)

  /**
   * Issues `events` in order; `failAt` is the position of the first effect
   * that fails (exits non-zero, or cannot be launched), if any. Nothing after
   * it happens and the run ends with that failure.
   */
  function Execute(events: seq<Event>, failAt: Option<nat>): (rep: Report)
    ensures rep.effects <= events
    ensures rep.error.None? <==> failAt.None? || failAt.value >= |events|
    ensures rep.error.None? ==> rep.effects == events
    ensures rep.error.Some? ==>
              failAt == Some(|rep.effects| - 1)
              && rep.error.value == CommandFailed(events[|rep.effects| - 1])
  {
    if failAt.Some? && failAt.value < |events| then
      Report(events[..failAt.value + 1], Some(CommandFailed(events[failAt.value])))
    else
      Report(events, None)
  }

  /** One run of the script in environment `env`. */
  function RunSetup(env: Env, failAt: Option<nat>): Report {
    match PlanFor(env)
    case Failure(e) => Report([], Some(e))
    case Success(plan) => Execute(plan.events, failAt)
  }
}
