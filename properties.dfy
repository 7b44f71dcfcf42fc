/**
 * What the setup-mariadb planner promises, proved about the functions of
 * `SetupMariaDB` (and so, through `Setup`'s postcondition, about the script).
 */
module SetupMariaDBProperties {
  import opened Wrappers
  import opened SetupMariaDB

  /** Every command among `events` is one that branch `b` issues. */
  ghost predicate OnlyFamily(events: seq<Event>, b: Branch) {
    forall e :: e in events && e.Exec? ==> FamilyOf(e.command) == b
  }

  /** No process is spawned through `runSafe`. */
  ghost predicate NoSpawn(events: seq<Event>) {
    forall e :: e in events ==> !e.Spawn?
  }

  // ---------------------------------------------------------------------------
  // Version validation

  /** The supported set is exactly the seven listed tags, and the default is 11.4. */
  lemma SupportedVersionSet()
    ensures DefaultVersion == "11.4"
    ensures forall v :: IsSupported(v) <==> v in {"11.4", "10.11", "10.6", "10.5", "11.2", "11.1", "11.5"}
  {
  }

  /** An unset or empty version input plans for 11.4 and never fails validation. */
  lemma UnsetVersionUsesDefault(env: Env)
    requires !Truthy(env.versionInput)
    ensures ResolveVersion(env.versionInput) == "11.4"
    ensures PlanFor(env).Success?
  {
  }

  /**
   * Validation fails exactly for a requested tag outside the supported set;
   * the script then throws before any effect happens.
   */
  lemma InvalidVersionRejected(env: Env, failAt: Option<nat>)
    ensures PlanFor(env).Failure? <==> !IsSupported(ResolveVersion(env.versionInput))
    ensures PlanFor(env).Failure? ==>
              Truthy(env.versionInput)
              && PlanFor(env).error == InvalidVersion(env.versionInput.value)
              && ErrorMessage(PlanFor(env).error) == "Invalid MariaDB version: " + env.versionInput.value
              && RunSetup(env, failAt) == Report([], Some(PlanFor(env).error))
  {
    if !Truthy(env.versionInput) {
      UnsetVersionUsesDefault(env);
    }
  }

  /** The legacy 10.3 tag, which the macOS grant commands test for, is rejected. */
  lemma LegacyVersionRejected(env: Env)
    requires env.versionInput == Some("10.3")
    ensures PlanFor(env) == Failure(InvalidVersion("10.3"))
  {
    SupportedVersionSet();
  }

  // ---------------------------------------------------------------------------
  // The shape of each branch

  lemma MacEventsFamily(formulaPresent: bool, formula: string, bin: string, legacyGrants: bool)
    ensures OnlyFamily(MacEvents(formulaPresent, formula, bin, legacyGrants), MacOS)
  {
  }

  lemma MacEventsNoSpawn(formulaPresent: bool, formula: string, bin: string, legacyGrants: bool)
    ensures NoSpawn(MacEvents(formulaPresent, formula, bin, legacyGrants))
  {
  }

  lemma MacEventsPath(formulaPresent: bool, formula: string, bin: string, legacyGrants: bool)
    ensures forall d :: AddToPath(d) in MacEvents(formulaPresent, formula, bin, legacyGrants) <==> d == bin
  {
  }

  lemma MacEventsUpdate(formulaPresent: bool, formula: string, bin: string, legacyGrants: bool)
    ensures var events := MacEvents(formulaPresent, formula, bin, legacyGrants);
            (Exec(BrewUpdate) in events <==> !formulaPresent)
            && (Exec(BrewUpdate) in events ==> events[0] == Exec(BrewUpdate))
  {
  }

  lemma MacEventsGrants(formulaPresent: bool, formula: string, bin: string, legacyGrants: bool)
    ensures forall e :: e in MacEvents(formulaPresent, formula, bin, legacyGrants) && e.Exec? ==>
              (e.command.GrantAnonymous? || e.command.FlushMac? ==> legacyGrants)
    ensures var ev := MacEvents(formulaPresent, formula, bin, legacyGrants);
            legacyGrants ==>
              |ev| >= 3 && ev[|ev| - 3] == AddToPath(bin)
              && ev[|ev| - 2] == Exec(GrantAnonymous(bin)) && ev[|ev| - 1] == Exec(FlushMac(bin))
    ensures var ev := MacEvents(formulaPresent, formula, bin, legacyGrants);
            !legacyGrants ==> |ev| >= 1 && ev[|ev| - 1] == AddToPath(bin)
  {
  }

  lemma WindowsEventsFamily(fullVersion: Option<string>, bin: string)
    ensures OnlyFamily(WindowsEvents(fullVersion, bin), Windows)
  {
  }

  lemma WindowsEventsNoSpawn(fullVersion: Option<string>, bin: string)
    ensures NoSpawn(WindowsEvents(fullVersion, bin))
  {
  }

  lemma WindowsEventsPath(fullVersion: Option<string>, bin: string)
    ensures forall d :: AddToPath(d) in WindowsEvents(fullVersion, bin) <==> d == bin
  {
  }

  lemma WindowsEventsDownload(fullVersion: Option<string>, bin: string)
    ensures forall e :: e in WindowsEvents(fullVersion, bin) && e.Exec? && e.command.DownloadMsi? ==>
              e.command.fullVersion == fullVersion
  {
  }

  /** Appending a command of family `b` keeps a trace within family `b`. */
  lemma OnlyFamilySnoc(events: seq<Event>, c: Command, b: Branch)
    requires OnlyFamily(events, b) && FamilyOf(c) == b
    ensures OnlyFamily(events + [Exec(c)], b)
  {
  }

  lemma LinuxEventsFamily(managedImage: bool, version: string, suite: string, package: string)
    ensures OnlyFamily(LinuxEvents(managedImage, version, suite, package), Linux)
  {
    var s := ClearPreviousData(managedImage);
    OnlyFamilySnoc(s, AddSigningKey, Linux);
    s := s + [Exec(AddSigningKey)];
    OnlyFamilySnoc(s, WriteSources(version, suite), Linux);
    s := s + [Exec(WriteSources(version, suite))];
    OnlyFamilySnoc(s, AptUpdate, Linux);
    s := s + [Exec(AptUpdate)];
    OnlyFamilySnoc(s, AptInstall(package), Linux);
    s := s + [Exec(AptInstall(package))];
    OnlyFamilySnoc(s, StartMariadb, Linux);
    s := s + [Exec(StartMariadb)];
    OnlyFamilySnoc(s, ClearRootPassword, Linux);
    s := s + [Exec(ClearRootPassword)];
    OnlyFamilySnoc(s, CreateCurrentUser, Linux);
    s := s + [Exec(CreateCurrentUser)];
    OnlyFamilySnoc(s, GrantCurrentUser, Linux);
    s := s + [Exec(GrantCurrentUser)];
    OnlyFamilySnoc(s, FlushLinux, Linux);
  }

  lemma LinuxEventsNoSpawn(managedImage: bool, version: string, suite: string, package: string)
    ensures NoSpawn(LinuxEvents(managedImage, version, suite, package))
  {
  }

  lemma LinuxEventsPath(managedImage: bool, version: string, suite: string, package: string)
    ensures forall e :: e in LinuxEvents(managedImage, version, suite, package) ==> !e.AddToPath?
  {
  }

  lemma LinuxEventsClean(managedImage: bool, version: string, suite: string, package: string)
    ensures var events := LinuxEvents(managedImage, version, suite, package);
            (Exec(StopMysqlService) in events <==> managedImage)
            && (Exec(RemoveDataDir) in events <==> managedImage)
            && (managedImage ==> events[0] == Exec(StopMysqlService) && events[1] == Exec(RemoveDataDir))
  {
  }

  lemma LinuxEventsInstall(managedImage: bool, version: string, suite: string, package: string)
    ensures var events := LinuxEvents(managedImage, version, suite, package);
            (forall p :: Exec(AptInstall(p)) in events <==> p == package)
            && (forall v, s :: Exec(WriteSources(v, s)) in events <==> v == version && s == suite)
  {
  }

  /** A successful plan is the platform branch's effects followed by the database step. */
  lemma SuccessfulPlan(env: Env)
    requires PlanFor(env).Success?
    ensures var version := ResolveVersion(env.versionInput);
            var p := PlatformPlan(env, version);
            IsSupported(version)
            && PlanFor(env).value == Plan(p.events + DatabaseSteps(env.platform, p.bin, env.database), p.bin)
  {
  }

  // ---------------------------------------------------------------------------
  // Platform dispatch

  /** Every command of a successful plan belongs to the one branch the platform selects. */
  lemma PlatformBranchesExclusive(env: Env)
    requires PlanFor(env).Success?
    ensures OnlyFamily(PlanFor(env).value.events, SelectBranch(env.platform))
  {
    SuccessfulPlan(env);
    var version := ResolveVersion(env.versionInput);
    var p := PlatformPlan(env, version);
    match SelectBranch(env.platform)
    case MacOS =>
      var formula := "mariadb@" + version;
      MacEventsFamily(FormulaPresent(env.files, env.arch, formula), formula, MacBin(env.arch, formula), version == "10.3");
    case Windows =>
      WindowsEventsFamily(FullVersion(version), WindowsBin(version));
    case Linux =>
      LinuxEventsFamily(IsManagedUbuntu(env.imageOS), version, UbuntuReleaseName(env.imageOS, env.osReleaseCodename),
                       InstallPackage(version));
  }

  /** `bin` is the per-platform server directory; only macOS and Windows add it to PATH. */
  lemma BinPerPlatform(env: Env)
    requires PlanFor(env).Success?
    ensures var v := ResolveVersion(env.versionInput);
            var bin := PlanFor(env).value.bin;
            match SelectBranch(env.platform)
            case MacOS => bin == BrewPrefix(env.arch) + "/opt/" + ("mariadb@" + v) + "/bin"
            case Windows => bin == "C:\\Program Files\\MariaDB " + v + "\\bin"
            case Linux => bin == "/usr/bin"
    ensures forall d :: AddToPath(d) in PlanFor(env).value.events <==>
              SelectBranch(env.platform) != Linux && d == PlanFor(env).value.bin
  {
    SuccessfulPlan(env);
    var version := ResolveVersion(env.versionInput);
    match SelectBranch(env.platform)
    case MacOS =>
      var formula := "mariadb@" + version;
      MacEventsPath(FormulaPresent(env.files, env.arch, formula), formula, MacBin(env.arch, formula), version == "10.3");
    case Windows =>
      WindowsEventsPath(FullVersion(version), WindowsBin(version));
    case Linux =>
      LinuxEventsPath(IsManagedUbuntu(env.imageOS), version, UbuntuReleaseName(env.imageOS, env.osReleaseCodename),
                       InstallPackage(version));
  }

  // ---------------------------------------------------------------------------
  // Windows: the version table

  /** Every supported tag has a full version, and that version extends the tag with a dot. */
  lemma VersionMapComplete()
    ensures VersionMap.Keys == {"11.4", "10.11", "10.6", "10.5", "11.2", "11.1", "11.5"}
    ensures forall v :: IsSupported(v) ==> v in VersionMap && v + "." <= VersionMap[v]
  {
    SupportedVersionSet();
    assert "11.4" + "." <= VersionMap["11.4"];
    assert "10.11" + "." <= VersionMap["10.11"];
    assert "10.6" + "." <= VersionMap["10.6"];
    assert "10.5" + "." <= VersionMap["10.5"];
    assert "11.2" + "." <= VersionMap["11.2"];
    assert "11.1" + "." <= VersionMap["11.1"];
    assert "11.5" + "." <= VersionMap["11.5"];
  }

  /** The download command of a successful plan never interpolates `undefined`. */
  lemma DownloadUrlDefined(env: Env)
    requires PlanFor(env).Success?
    ensures forall e :: e in PlanFor(env).value.events && e.Exec? && e.command.DownloadMsi? ==>
              e.command.fullVersion.Some?
              && ResolveVersion(env.versionInput) + "." <= e.command.fullVersion.value
  {
    SuccessfulPlan(env);
    var version := ResolveVersion(env.versionInput);
    var p := PlatformPlan(env, version);
    var events := PlanFor(env).value.events;
    if SelectBranch(env.platform) == Windows {
      VersionMapComplete();
      assert FullVersion(version).Some? && version + "." <= FullVersion(version).value;
      assert p.events == WindowsEvents(FullVersion(version), WindowsBin(version));
      WindowsEventsDownload(FullVersion(version), WindowsBin(version));
      SpawnSuffixKept(p.events, DatabaseSteps(env.platform, p.bin, env.database));
    } else {
      PlatformBranchesExclusive(env);
      NoWindowsDownload(events, SelectBranch(env.platform));
    }
  }

  /** A trace within a non-Windows family downloads no installer. */
  lemma NoWindowsDownload(events: seq<Event>, b: Branch)
    requires OnlyFamily(events, b) && b != Windows
    ensures forall e :: e in events && e.Exec? ==> !e.command.DownloadMsi?
  {
    forall e | e in events && e.Exec?
      ensures !e.command.DownloadMsi?
    {
      assert FamilyOf(e.command) == b;
    }
  }

  /**
   * The installer URL of a download whose full version extends `tag` names a
   * release of `tag` (`DownloadUrlDefined` supplies the premise for every plan).
   */
  lemma RenderedDownloadUrl(tag: string, fullVersion: Option<string>)
    requires fullVersion.Some? && tag + "." <= fullVersion.value
    ensures "curl -Ls -o mariadb.msi https://downloads.mariadb.com/MariaDB/mariadb-" + tag + "."
            <= Render(DownloadMsi(fullVersion))
  {
    var f := fullVersion.value;
    var url := "curl -Ls -o mariadb.msi https://downloads.mariadb.com/MariaDB/mariadb-";
    var rest := "/winx64-packages/mariadb-" + f + "-winx64.msi";
    assert Render(DownloadMsi(fullVersion)) == url + f + rest;
    PrefixUnderConcat(url, tag + ".", f, rest);
    assert url + (tag + ".") == url + tag + ".";
  }

  /** A prefix stays a prefix under a common head and any tail. */
  lemma PrefixUnderConcat(head: string, a: string, b: string, tail: string)
    requires a <= b
    ensures head + a <= head + b + tail
  {
    assert (head + b + tail)[..|head + a|] == head + a;
  }

  // ---------------------------------------------------------------------------
  // Linux: package, clean state, codename

  /** The package is bare exactly for 11.5, 11.4, 11.2, 11.1 and 10.11, whatever the tag. */
  lemma InstallPackageBare(version: string)
    ensures InstallPackage(version) == "mariadb-server" <==>
              version in {"11.5", "11.4", "11.2", "11.1", "10.11"}
    ensures InstallPackage(version) != "mariadb-server" ==> InstallPackage(version) == "mariadb-server-" + version
  {
    if version !in BarePackageVersions {
      assert |InstallPackage(version)| > |"mariadb-server"|;
    }
  }

  /** Among the supported tags only 10.6 and 10.5 get a version-suffixed package. */
  lemma SupportedPackageNames(version: string)
    requires IsSupported(version)
    ensures InstallPackage(version) == "mariadb-server" <==> version != "10.6" && version != "10.5"
    ensures version == "10.6" ==> InstallPackage(version) == "mariadb-server-10.6"
    ensures version == "10.5" ==> InstallPackage(version) == "mariadb-server-10.5"
  {
    SupportedVersionSet();
    InstallPackageBare(version);
  }

  /** On the Linux branch the one package installed is `install_package` for the resolved version. */
  lemma LinuxInstallsPackage(env: Env)
    requires PlanFor(env).Success? && SelectBranch(env.platform) == Linux
    ensures forall p :: Exec(AptInstall(p)) in PlanFor(env).value.events <==>
              p == InstallPackage(ResolveVersion(env.versionInput))
  {
    SuccessfulPlan(env);
    var version := ResolveVersion(env.versionInput);
    LinuxEventsInstall(IsManagedUbuntu(env.imageOS), version, UbuntuReleaseName(env.imageOS, env.osReleaseCodename),
                     InstallPackage(version));
  }

  /**
   * The preinstalled server is stopped and its data removed exactly on the
   * managed Ubuntu images, and then these are the first two effects, before
   * any install command.
   */
  lemma CleanStateOnManagedImages(env: Env)
    requires PlanFor(env).Success?
    ensures var events := PlanFor(env).value.events;
            Exec(StopMysqlService) in events <==> SelectBranch(env.platform) == Linux && IsManagedUbuntu(env.imageOS)
    ensures var events := PlanFor(env).value.events;
            Exec(RemoveDataDir) in events <==> SelectBranch(env.platform) == Linux && IsManagedUbuntu(env.imageOS)
    ensures var events := PlanFor(env).value.events;
            Exec(StopMysqlService) in events ==>
              |events| >= 2 && events[0] == Exec(StopMysqlService) && events[1] == Exec(RemoveDataDir)
  {
    SuccessfulPlan(env);
    var version := ResolveVersion(env.versionInput);
    var p := PlatformPlan(env, version);
    var steps := DatabaseSteps(env.platform, p.bin, env.database);
    if SelectBranch(env.platform) == Linux {
      var managed := IsManagedUbuntu(env.imageOS);
      var suite := UbuntuReleaseName(env.imageOS, env.osReleaseCodename);
      var package := InstallPackage(version);
      assert p.events == LinuxEvents(managed, version, suite, package);
      LinuxEventsClean(managed, version, suite, package);
      SpawnSuffixKept(p.events, steps);
    } else {
      PlatformBranchesExclusive(env);
      NoLinuxCommands(PlanFor(env).value.events, SelectBranch(env.platform));
    }
  }

  /** Appending spawned processes keeps which commands a trace holds and where. */
  lemma SpawnSuffixKept(events: seq<Event>, steps: seq<Event>)
    requires forall e :: e in steps ==> e.Spawn?
    ensures forall c :: Exec(c) in events + steps <==> Exec(c) in events
    ensures forall k :: 0 <= k < |events| ==> (events + steps)[k] == events[k]
  {
    forall c | Exec(c) in events + steps
      ensures Exec(c) in events
    {
      if Exec(c) in steps {
        assert false;
      }
    }
  }

  /** A trace within a non-Linux family neither stops MySQL nor removes its data directory. */
  lemma NoLinuxCommands(events: seq<Event>, b: Branch)
    requires OnlyFamily(events, b) && b != Linux
    ensures Exec(StopMysqlService) !in events && Exec(RemoveDataDir) !in events
  {
    assert FamilyOf(StopMysqlService) == Linux && FamilyOf(RemoveDataDir) == Linux;
  }

  /**
   * A case whose tag repeats an earlier case's tag is never selected, so a
   * switch with a duplicate tag has dead code.
   */
  lemma ShadowedCaseNeverSelected(cases: seq<Case>, i: nat, j: nat, key: Option<string>)
    requires i < j < |cases| && cases[i].tag == cases[j].tag
    ensures SwitchIndex(cases, key) != Some(j)
  {
    SwitchIndexFirstMatch(cases, key);
  }

  /**
   * `image20` gives focal and `image22` gives jammy; the second `image20`
   * case (noble) is dead; every other image, the managed `ubuntuNN` labels
   * included, falls through to the OS-release codename.
   */
  lemma ReleaseNameLookup(image: Option<string>, osReleaseCodename: string)
    ensures image == Some("image20") ==> UbuntuReleaseName(image, osReleaseCodename) == "focal"
    ensures image == Some("image22") ==> UbuntuReleaseName(image, osReleaseCodename) == "jammy"
    ensures SwitchIndex(ReleaseNameCases, image) != Some(2)
    ensures image != Some("image20") && image != Some("image22") ==>
              UbuntuReleaseName(image, osReleaseCodename) == osReleaseCodename
    ensures IsManagedUbuntu(image) ==> UbuntuReleaseName(image, osReleaseCodename) == osReleaseCodename
  {
    ShadowedCaseNeverSelected(ReleaseNameCases, 0, 2, image);
    SwitchIndexFirstMatch(ReleaseNameCases, image);
  }

  /** A release name of `noble` can only come from the OS-release file. */
  lemma NobleOnlyFromOsRelease(image: Option<string>, osReleaseCodename: string)
    requires UbuntuReleaseName(image, osReleaseCodename) == "noble"
    ensures osReleaseCodename == "noble"
  {
    ReleaseNameLookup(image, osReleaseCodename);
  }

  /** The sources command of the Linux branch names the resolved version and the looked-up suite. */
  lemma LinuxSourcesEntry(env: Env)
    requires PlanFor(env).Success? && SelectBranch(env.platform) == Linux
    ensures forall v, s :: Exec(WriteSources(v, s)) in PlanFor(env).value.events <==>
              v == ResolveVersion(env.versionInput) && s == UbuntuReleaseName(env.imageOS, env.osReleaseCodename)
  {
    SuccessfulPlan(env);
    var version := ResolveVersion(env.versionInput);
    LinuxEventsInstall(IsManagedUbuntu(env.imageOS), version, UbuntuReleaseName(env.imageOS, env.osReleaseCodename),
                     InstallPackage(version));
  }

  // ---------------------------------------------------------------------------
  // macOS

  /** The Homebrew tap is checked out under Homebrew's prefix, which is /opt/homebrew on arm64 only. */
  lemma HomebrewPrefixes(arch: string)
    ensures BrewPrefix(arch) <= TapPrefix(arch)
    ensures BrewPrefix(arch) == "/opt/homebrew" <==> arch == "arm64"
    ensures TapPrefix(arch) == "/opt/homebrew" <==> arch == "arm64"
    ensures arch != "arm64" ==> TapPrefix(arch) == "/usr/local/Homebrew" && BrewPrefix(arch) == "/usr/local"
  {
    assert "/usr/local" <= "/usr/local/Homebrew";
    assert "/usr/local"[1] != "/opt/homebrew"[1];
    assert "/usr/local/Homebrew"[1] != "/opt/homebrew"[1];
  }

  /** The formula of every supported version is probed under the `m` directory of the tap. */
  lemma FormulaFileLetter(version: string)
    ensures FirstChar("mariadb@" + version) == "m"
  {
  }

  /** On macOS, `brew update` is issued exactly when the formula is absent, and then first. */
  lemma BrewUpdateIffFormulaAbsent(env: Env)
    requires PlanFor(env).Success? && IsMac(env.platform)
    ensures var events := PlanFor(env).value.events;
            var formula := "mariadb@" + ResolveVersion(env.versionInput);
            (Exec(BrewUpdate) in events <==> !FormulaPresent(env.files, env.arch, formula))
            && (Exec(BrewUpdate) in events ==> events[0] == Exec(BrewUpdate))
  {
    SuccessfulPlan(env);
    var version := ResolveVersion(env.versionInput);
    var formula := "mariadb@" + version;
    MacEventsUpdate(FormulaPresent(env.files, env.arch, formula), formula, MacBin(env.arch, formula), version == "10.3");
  }

  /** The privilege grants gated on 10.3 are never issued. */
  lemma NoLegacyGrants(env: Env)
    requires PlanFor(env).Success?
    ensures forall e :: e in PlanFor(env).value.events && e.Exec? ==>
              !e.command.GrantAnonymous? && !e.command.FlushMac?
  {
    SuccessfulPlan(env);
    PlatformBranchesExclusive(env);
    SupportedVersionSet();
    var version := ResolveVersion(env.versionInput);
    if SelectBranch(env.platform) == MacOS {
      var formula := "mariadb@" + version;
      assert version != "10.3";
      MacEventsGrants(FormulaPresent(env.files, env.arch, formula), formula, MacBin(env.arch, formula), false);
    }
  }

  // ---------------------------------------------------------------------------
  // The database step

  /**
   * `mysqladmin create` is issued exactly when a non-empty database name is
   * given, as the last effect, from the plan's `bin` directory.
   */
  lemma DatabaseStepIffNamed(env: Env)
    requires PlanFor(env).Success?
    ensures var events := PlanFor(env).value.events;
            (exists e :: e in events && e.Spawn?) <==> Truthy(env.database)
    ensures var plan := PlanFor(env).value;
            Truthy(env.database) ==>
              |plan.events| > 0
              && plan.events[|plan.events| - 1]
                 == Spawn(JoinPath(env.platform, plan.bin, "mysqladmin"), ["create", env.database.value])
  {
    SuccessfulPlan(env);
    var version := ResolveVersion(env.versionInput);
    var p := PlatformPlan(env, version);
    PlatformPlanNoSpawn(env, version);
    var events := PlanFor(env).value.events;
    var steps := DatabaseSteps(env.platform, p.bin, env.database);
    assert events == p.events + steps;
    if Truthy(env.database) {
      assert events[|events| - 1] in events;
    } else {
      assert steps == [];
      assert events == p.events;
    }
  }

  /** No branch spawns a process of its own. */
  lemma PlatformPlanNoSpawn(env: Env, version: string)
    ensures NoSpawn(PlatformPlan(env, version).events)
  {
    match SelectBranch(env.platform)
    case MacOS =>
      var formula := "mariadb@" + version;
      MacEventsNoSpawn(FormulaPresent(env.files, env.arch, formula), formula, MacBin(env.arch, formula), version == "10.3");
    case Windows =>
      WindowsEventsNoSpawn(FullVersion(version), WindowsBin(version));
    case Linux =>
      LinuxEventsNoSpawn(IsManagedUbuntu(env.imageOS), version, UbuntuReleaseName(env.imageOS, env.osReleaseCodename),
                         InstallPackage(version));
  }

  // ---------------------------------------------------------------------------
  // Running the plan

  /**
   * A failure at step `k` leaves exactly the first `k + 1` effects in place and
   * ends the run with that step's failure; without a failure every effect happens.
   */
  lemma FirstFailureAborts(env: Env, failAt: Option<nat>)
    requires PlanFor(env).Success?
    ensures var events := PlanFor(env).value.events;
            var rep := RunSetup(env, failAt);
            if failAt.Some? && failAt.value < |events| then
              rep.effects == events[..failAt.value + 1]
              && rep.error == Some(CommandFailed(events[failAt.value]))
            else
              rep.effects == events && rep.error.None?
  {
  }

  /** A failing `mysqladmin create` is reported to the caller, not swallowed. */
  lemma DatabaseFailureObservable(env: Env)
    requires PlanFor(env).Success? && Truthy(env.database)
    ensures var plan := PlanFor(env).value;
            var rep := RunSetup(env, Some(|plan.events| - 1));
            rep.effects == plan.events
            && rep.error == Some(CommandFailed(Spawn(JoinPath(env.platform, plan.bin, "mysqladmin"),
                                                     ["create", env.database.value])))
  {
    DatabaseStepIffNamed(env);
  }

  // ---------------------------------------------------------------------------
  // Scenarios

  /** The eleven effects of the Linux branch on a managed image, in order. */
  lemma ManagedLinuxEvents(version: string, suite: string, package: string)
    ensures LinuxEvents(true, version, suite, package)
            == [Exec(StopMysqlService), Exec(RemoveDataDir), Exec(AddSigningKey),
                Exec(WriteSources(version, suite)), Exec(AptUpdate), Exec(AptInstall(package)),
                Exec(StartMariadb), Exec(ClearRootPassword), Exec(CreateCurrentUser),
                Exec(GrantCurrentUser), Exec(FlushLinux)]
  {
  }

  /** The default version on a managed ubuntu22 runner. */
  lemma Ubuntu22DefaultScenario(codename: string)
    ensures var env := Env("linux", "x64", None, None, Some("ubuntu22"), {}, codename);
            PlanFor(env) == Success(Plan(
              [Exec(StopMysqlService), Exec(RemoveDataDir), Exec(AddSigningKey),
               Exec(WriteSources("11.4", codename)), Exec(AptUpdate), Exec(AptInstall("mariadb-server")),
               Exec(StartMariadb), Exec(ClearRootPassword), Exec(CreateCurrentUser),
               Exec(GrantCurrentUser), Exec(FlushLinux)],
              "/usr/bin"))
  {
    var env := Env("linux", "x64", None, None, Some("ubuntu22"), {}, codename);
    SupportedVersionSet();
    assert ResolveVersion(env.versionInput) == "11.4";
    assert SelectBranch("linux") == Linux;
    assert IsManagedUbuntu(Some("ubuntu22"));
    ReleaseNameLookup(Some("ubuntu22"), codename);
    assert InstallPackage("11.4") == "mariadb-server";
    ManagedLinuxEvents("11.4", codename, "mariadb-server");
    assert PlatformPlan(env, "11.4") == Plan(LinuxEvents(true, "11.4", codename, "mariadb-server"), "/usr/bin");
    assert DatabaseSteps(env.platform, "/usr/bin", None) == [];
    var events := LinuxEvents(true, "11.4", codename, "mariadb-server");
    assert events + [] == events;
    assert PlanFor(env) == Success(Plan(events, "/usr/bin"));
  }
}
