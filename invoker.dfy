/** backend/build.py: the `AndroidAPKBuilder` that checks the toolchain, runs
    Gradle in the project directory and looks for the APK it produced. The
    machine is a value: which paths exist, the files in the order directory
    scans meet them, and the exit status of the version probes; the Gradle run
    is given as its output lines and exit code. */
module Invoker {
  import opened Wrappers
  import opened Text
  import opened Paths

  /** What the builder sees of the machine. `javaProbe` and `gradleProbe` are the
      exit codes of `java -version` and `gradle --version`, `None` when the
      program cannot be started. */
  datatype Host = Host(files: set<Path>, dirs: set<Path>, listing: seq<Path>, home: Option<string>,
                       javaProbe: Option<int>, gradleProbe: Option<int>)

  /** Python truthiness of an optional string. */
  predicate Truthy(p: Option<string>) {
    p.Some? && p.value != ""
  }

  /** `os.path.exists(p)` with the process in `cwd`. */
  predicate ExistsAt(host: Host, cwd: Path, p: Path) {
    p != "" && Resolve(cwd, p) in host.files + host.dirs
  }

  // ---------------------------------------------------------------------------
  // Environment checks

  /** The SDK locations `_check_android_sdk` tries, in order. */
  function SdkCandidates(configured: Option<string>, home: Option<string>): seq<Option<string>> {
    [ configured,
      Some(Join(if home.Some? then home.value else "", "Android/Sdk")),
      Some("/usr/local/android-sdk"),
      Some("C:\\Android\\Sdk") ]
  }

  predicate UsableSdk(host: Host, cwd: Path, c: Option<string>) {
    Truthy(c) && ExistsAt(host, cwd, c.value)
  }

  /** The first usable candidate. */
  function FirstSdk(host: Host, cwd: Path, cands: seq<Option<string>>): Option<string>
    decreases |cands|
  {
    if cands == [] then None
    else if UsableSdk(host, cwd, cands[0]) then cands[0]
    else FirstSdk(host, cwd, cands[1..])
  }

  /** `FirstSdk` finds the usable candidate with no usable one before it, and
      nothing exactly when no candidate is usable. */
  lemma {:induction false} FirstSdkIsFirst(host: Host, cwd: Path, cands: seq<Option<string>>)
    ensures var r := FirstSdk(host, cwd, cands);
      && (r.None? <==> forall i :: 0 <= i < |cands| ==> !UsableSdk(host, cwd, cands[i]))
      && (r.Some? ==> exists k :: 0 <= k < |cands| && cands[k] == r && UsableSdk(host, cwd, r)
                                 && forall i :: 0 <= i < k ==> !UsableSdk(host, cwd, cands[i]))
    decreases |cands|
  {
    if cands != [] && !UsableSdk(host, cwd, cands[0]) {
      FirstSdkIsFirst(host, cwd, cands[1..]);
      var r := FirstSdk(host, cwd, cands);
      if r.Some? {
        var k :| 0 <= k < |cands[1..]| && cands[1..][k] == r && UsableSdk(host, cwd, r)
                 && forall i :: 0 <= i < k ==> !UsableSdk(host, cwd, cands[1..][i]);
        assert cands[k + 1] == r;
        forall i | 0 <= i < k + 1 ensures !UsableSdk(host, cwd, cands[i]) {
          if i > 0 {
            assert cands[i] == cands[1..][i - 1];
          }
        }
      } else {
        forall i | 0 <= i < |cands| ensures !UsableSdk(host, cwd, cands[i]) {
          if i > 0 {
            assert cands[i] == cands[1..][i - 1];
          }
        }
      }
    }
  }

  /** `_check_java`. */
  predicate JavaOk(host: Host) {
    host.javaProbe == Some(0)
  }

  /** What `check_environment` returns. */
  datatype EnvReport = EnvReport(status: bool, java: bool, sdk: bool, gradle: bool, message: string)

  function Report(java: bool, sdk: bool, gradle: bool): (r: EnvReport)
    ensures r.status <==> java && sdk && gradle
    ensures r.message == "Environment ready" <==> r.status
    ensures r.java == java && r.sdk == sdk && r.gradle == gradle
  {
    var status := java && sdk && gradle;
    EnvReport(status, java, sdk, gradle, if status then "Environment ready" else "Missing Android build tools")
  }

  // ---------------------------------------------------------------------------
  // The Gradle run

  /** `./gradlew` when the wrapper exists in `dir`, else the system Gradle. */
  function GradleCommand(host: Host, dir: Path): string {
    if ExistsAt(host, dir, "./gradlew") then "./gradlew" else "gradle"
  }

  function GradleTask(buildType: string): string {
    if buildType == "release" then "assembleRelease" else "assembleDebug"
  }

  /** The command line, and the value `ANDROID_SDK_ROOT` and `ANDROID_HOME` are set
      to when an SDK is known. */
  datatype Invocation = Invocation(cmd: seq<string>, sdkRoot: Option<string>)

  function InvocationIn(host: Host, dir: Path, sdk: Option<string>, buildType: string): Invocation {
    Invocation([GradleCommand(host, dir), GradleTask(buildType)], if Truthy(sdk) then sdk else None)
  }

  /** What the Gradle process does: its output lines and exit code, or the
      message of the exception raised when it cannot be started. */
  datatype RunResult = Started(lines: seq<string>, exitCode: int) | NotStarted(message: string)

  /** What `build_apk` returns; `output` is absent when an exception was raised. */
  datatype BuildResult = BuildOk(apkPath: Path, output: string) | BuildError(error: string, errorOutput: Option<string>)

  /** `os.chdir(p)`: the exception it raises, if any. */
  function ChdirError(host: Host, cwd: Path, p: Path): Option<string> {
    if p != "" && Resolve(cwd, p) in host.dirs then None
    else if p != "" && Resolve(cwd, p) in host.files then Some("[Errno 20] Not a directory: " + PyRepr(p))
    else Some("[Errno 2] No such file or directory: " + PyRepr(p))
  }

  /** Each line stripped, as `build_apk` collects them. */
  function Stripped(lines: seq<string>): (r: seq<string>)
    ensures |r| == |lines|
  {
    MapSeq(Strip, lines)
  }

  const TailLines: nat := 20

  function Tail(lines: seq<string>): string {
    JoinWith("\n", LastN(Stripped(lines), TailLines))
  }

  const BuildFailedPrefix := "Build failed with exit code "

  /** `build_apk` with the builder's SDK path `sdk`, started in `cwd`. */
  function BuildOutcome(sdk: Option<string>, cwd: Path, host: Host, project: Path, buildType: string, run: RunResult)
    : (Option<Invocation>, BuildResult)
  {
    match ChdirError(host, cwd, project)
    case Some(e) => (None, BuildError(e, None))
    case None =>
      var inv := InvocationIn(host, Resolve(cwd, project), sdk, buildType);
      match run
      case NotStarted(m) => (Some(inv), BuildError(m, None))
      case Started(lines, code) => (Some(inv), GradleResult(host.listing, project, buildType, lines, code))
  }

  /** The result once Gradle has run with output `lines` and exit code `code`. */
  function GradleResult(listing: seq<Path>, project: Path, buildType: string, lines: seq<string>, code: int): BuildResult {
    var out := Tail(lines);
    if code != 0 then BuildError(BuildFailedPrefix + IntToString(code), Some(out))
    else match FindApk(listing, project, buildType)
      case Some(p) => BuildOk(p, out)
      case None => BuildError("APK file not found after build", Some(out))
  }

  /** The wrapper wins over the system Gradle, the task is `assembleRelease`
      exactly for the build type "release", and the SDK variables are set exactly
      when an SDK path is known. */
  lemma CommandChoice(sdk: Option<string>, cwd: Path, host: Host, project: Path, buildType: string, run: RunResult)
    ensures var (inv, _) := BuildOutcome(sdk, cwd, host, project, buildType, run);
      && (inv.Some? <==> ChdirError(host, cwd, project).None?)
      && (inv.Some? ==>
            && |inv.value.cmd| == 2
            && (inv.value.cmd[0] == "./gradlew" <==> Resolve(Resolve(cwd, project), "./gradlew") in host.files + host.dirs)
            && (inv.value.cmd[0] != "./gradlew" ==> inv.value.cmd[0] == "gradle")
            && (inv.value.cmd[1] == "assembleRelease" <==> buildType == "release")
            && (inv.value.cmd[1] != "assembleRelease" ==> inv.value.cmd[1] == "assembleDebug")
            && (inv.value.sdkRoot.Some? <==> Truthy(sdk))
            && (inv.value.sdkRoot.Some? ==> inv.value.sdkRoot == sdk))
  {
  }

  /** Success exactly when Gradle exits with 0 and an APK is found, and the APK
      reported then ends with ".apk". */
  lemma BuildSucceedsIff(sdk: Option<string>, cwd: Path, host: Host, project: Path, buildType: string, run: RunResult)
    ensures var (_, result) := BuildOutcome(sdk, cwd, host, project, buildType, run);
      && (result.BuildOk? <==>
            ChdirError(host, cwd, project).None? && run.Started? && run.exitCode == 0
            && FindApk(host.listing, project, buildType).Some?)
      && (result.BuildOk? ==> EndsWith(result.apkPath, ".apk") && result.apkPath in host.listing)
  {
    var (_, result) := BuildOutcome(sdk, cwd, host, project, buildType, run);
    if result.BuildOk? {
      FindApkShape(host.listing, project, buildType);
    }
  }

  /** The `output` entry of a result, if it has one. */
  function OutputOf(r: BuildResult): Option<string> {
    match r
    case BuildOk(_, out) => Some(out)
    case BuildError(_, out) => out
  }

  /** The tail is the last (at most) twenty lines, each stripped, joined by newlines. */
  lemma TailKeepsLastLines(lines: seq<string>)
    ensures var last := LastN(lines, TailLines);
      && |last| == (if |lines| < TailLines then |lines| else TailLines)
      && last == lines[|lines| - |last|..]
      && Tail(lines) == JoinWith("\n", Stripped(last))
  {
    LastNOfMap(Strip, lines, TailLines);
  }

  /** Whenever Gradle ran, `output` is the tail of its lines; when an exception was
      raised there is no output. */
  lemma BuildOutputIsTail(sdk: Option<string>, cwd: Path, host: Host, project: Path, buildType: string, run: RunResult)
    ensures var (_, result) := BuildOutcome(sdk, cwd, host, project, buildType, run);
      && (run.NotStarted? || ChdirError(host, cwd, project).Some? ==> result.BuildError? && OutputOf(result).None?)
      && (run.Started? && ChdirError(host, cwd, project).None? ==> OutputOf(result) == Some(Tail(run.lines)))
  {
  }

  /** A failing exit code is reported in the message, from which it can be read back. */
  lemma ExitCodeInMessage(sdk: Option<string>, cwd: Path, host: Host, project: Path, buildType: string, lines: seq<string>, code: int)
    requires ChdirError(host, cwd, project).None? && code != 0
    ensures var (_, result) := BuildOutcome(sdk, cwd, host, project, buildType, Started(lines, code));
      && result.BuildError?
      && StartsWith(result.error, BuildFailedPrefix)
      && var digits := result.error[|BuildFailedPrefix|..];
         digits != [] && (if digits[0] == '-' then IsDigits(digits[1..]) else IsDigits(digits)) && ParseInt(digits) == code
  {
    var (_, result) := BuildOutcome(sdk, cwd, host, project, buildType, Started(lines, code));
    IntToStringRoundTrip(code);
    assert result.error[|BuildFailedPrefix|..] == IntToString(code);
  }

  // ---------------------------------------------------------------------------
  // Finding the APK

  /** A glob pattern as `_find_apk_file` uses them: one path, or every `*.apk`
      directly inside a directory (names starting with a dot excluded, as glob does). */
  datatype Pattern = Literal(path: Path) | AnyApkIn(dir: Path)

  function ApkPatterns(project: Path, buildType: string): seq<Pattern> {
    [ Literal(Join(project, "app/build/outputs/apk/" + buildType + "/app-" + buildType + ".apk")),
      AnyApkIn(Join(project, "app/build/outputs/apk/" + buildType)),
      AnyApkIn(Join(project, "build/outputs/apk/" + buildType)) ]
  }

  predicate Matches(p: Path, pat: Pattern) {
    match pat
    case Literal(q) => p == q
    case AnyApkIn(dir) =>
      && StartsWith(p, dir + "/")
      && var name := p[|dir| + 1..];
         '/' !in name && EndsWith(name, ".apk") && name[0] != '.'
  }

  /** `glob.glob`: the listed files the pattern matches, in listing order. */
  function Glob(listing: seq<Path>, pat: Pattern): (r: seq<Path>)
    ensures forall i :: 0 <= i < |r| ==> r[i] in listing && Matches(r[i], pat)
    ensures (exists i :: 0 <= i < |listing| && Matches(listing[i], pat)) ==> r != []
    decreases |listing|
  {
    if listing == [] then []
    else
      var rest := Glob(listing[1..], pat);
      assert forall i :: 1 <= i < |listing| ==> listing[i] == listing[1..][i - 1];
      if Matches(listing[0], pat) then [listing[0]] + rest else rest
  }

  /** A file `os.walk(project)` reaches whose name ends with ".apk". */
  predicate InWalk(p: Path, project: Path) {
    project != "" && StartsWith(p, Join(project, "")) && EndsWith(p, ".apk")
  }

  /** The first listed file the walk accepts. */
  function FirstWalked(listing: seq<Path>, project: Path): Option<Path>
    decreases |listing|
  {
    if listing == [] then None
    else if InWalk(listing[0], project) then Some(listing[0])
    else FirstWalked(listing[1..], project)
  }

  /** The first match of the first pattern that has one, then the walk. */
  function FirstGlob(listing: seq<Path>, pats: seq<Pattern>): Option<Path>
    decreases |pats|
  {
    if pats == [] then None
    else
      var files := Glob(listing, pats[0]);
      if files != [] then Some(files[0]) else FirstGlob(listing, pats[1..])
  }

  function FindApk(listing: seq<Path>, project: Path, buildType: string): Option<Path> {
    match FirstGlob(listing, ApkPatterns(project, buildType))
    case Some(p) => Some(p)
    case None => FirstWalked(listing, project)
  }

  lemma {:induction false} FirstWalkedShape(listing: seq<Path>, project: Path)
    ensures var r := FirstWalked(listing, project);
      && (r.None? <==> forall i :: 0 <= i < |listing| ==> !InWalk(listing[i], project))
      && (r.Some? ==> r.value in listing && InWalk(r.value, project))
    decreases |listing|
  {
    if listing != [] && !InWalk(listing[0], project) {
      FirstWalkedShape(listing[1..], project);
      forall i | 1 <= i < |listing| ensures listing[i] == listing[1..][i - 1] {
      }
    }
  }

  lemma {:induction false} FirstGlobShape(listing: seq<Path>, pats: seq<Pattern>)
    ensures var r := FirstGlob(listing, pats);
      && (r.None? <==> forall k, i :: 0 <= k < |pats| && 0 <= i < |listing| ==> !Matches(listing[i], pats[k]))
      && (r.Some? ==> exists k :: 0 <= k < |pats| && r.value in listing && Matches(r.value, pats[k])
                                 && forall j, i :: 0 <= j < k && 0 <= i < |listing| ==> !Matches(listing[i], pats[j]))
    decreases |pats|
  {
    if pats != [] {
      var files := Glob(listing, pats[0]);
      if files == [] {
        FirstGlobShape(listing, pats[1..]);
        var r := FirstGlob(listing, pats);
        if r.Some? {
          var k :| 0 <= k < |pats[1..]| && r.value in listing && Matches(r.value, pats[1..][k])
                   && forall j, i :: 0 <= j < k && 0 <= i < |listing| ==> !Matches(listing[i], pats[1..][j]);
          assert pats[k + 1] == pats[1..][k];
          forall j, i | 0 <= j < k + 1 && 0 <= i < |listing| ensures !Matches(listing[i], pats[j]) {
            if j > 0 {
              assert pats[j] == pats[1..][j - 1];
            }
          }
        } else {
          forall k, i | 0 <= k < |pats| && 0 <= i < |listing| ensures !Matches(listing[i], pats[k]) {
            if k > 0 {
              assert pats[k] == pats[1..][k - 1];
            }
          }
        }
      }
    }
  }

  /** Every pattern only matches paths ending with ".apk". */
  lemma PatternsMatchApks(project: Path, buildType: string, p: Path, k: nat)
    requires k < 3 && Matches(p, ApkPatterns(project, buildType)[k])
    ensures EndsWith(p, ".apk")
  {
    if k == 0 {
      var name := "app/build/outputs/apk/" + buildType + "/app-" + buildType + ".apk";
      JoinEndsWith(project, name);
      assert p[|p| - 4..] == name[|name| - 4..];
    } else {
      var dir := ApkPatterns(project, buildType)[k].dir;
      var name := p[|dir| + 1..];
      assert p[|p| - 4..] == name[|name| - 4..];
    }
  }

  /** `_find_apk_file` returns a listed path ending with ".apk": a match of the
      first pattern that has any, and the walk only when no pattern matches. */
  lemma FindApkShape(listing: seq<Path>, project: Path, buildType: string)
    ensures var r := FindApk(listing, project, buildType);
      var pats := ApkPatterns(project, buildType);
      && (r.Some? ==> r.value in listing && EndsWith(r.value, ".apk"))
      && (r.None? <==> forall i :: 0 <= i < |listing| ==>
                         (!InWalk(listing[i], project) && forall k :: 0 <= k < 3 ==> !Matches(listing[i], pats[k])))
      && ((r.Some? && forall k, i :: 0 <= k < 3 && 0 <= i < |listing| ==> !Matches(listing[i], pats[k]))
          ==> InWalk(r.value, project))
  {
    var pats := ApkPatterns(project, buildType);
    FirstGlobShape(listing, pats);
    FirstWalkedShape(listing, project);
    var g := FirstGlob(listing, pats);
    if g.Some? {
      var k :| 0 <= k < |pats| && g.value in listing && Matches(g.value, pats[k])
               && forall j, i :: 0 <= j < k && 0 <= i < |listing| ==> !Matches(listing[i], pats[j]);
      PatternsMatchApks(project, buildType, g.value, k);
    }
  }

  // ---------------------------------------------------------------------------
  // Signing

  /** What `sign_apk` returns. */
  datatype SignResult = Signed(signedApk: Path) | SignFailed(error: string)

  /** The copy's name: every ".apk" in the path becomes "-signed.apk". */
  function SignedPath(apk: Path): Path {
    ReplaceAll(apk, ".apk", "-signed.apk")
  }

  /** `sign_apk`: `shutil.copy2` to the rewritten path. A destination that is a
      directory is replaced by the source's base name inside it; then a copy onto
      the source itself is refused, and only then is the source opened, which
      fails for a missing path and for a directory. A path without ".apk" is its
      own destination: refused for a file, and for a directory whose base name
      is "" or "." (joining that name back gives the directory again). */
  function SignApk(host: Host, cwd: Path, apk: Path): (r: SignResult)
    ensures r.Signed? ==> r.signedApk == SignedPath(apk) && r.signedApk != apk
    ensures (apk == "" || Resolve(cwd, apk) !in host.files + host.dirs)
      ==> r == SignFailed("[Errno 2] No such file or directory: " + PyRepr(apk))
    ensures apk != "" && Resolve(cwd, apk) in host.dirs - host.files
      ==> r == (if SignedPath(apk) == apk && (Basename(apk) == "" || Basename(apk) == ".")
                then SignFailed(PyRepr(apk) + " and " + PyRepr(Join(apk, Basename(apk))) + " are the same file")
                else SignFailed("[Errno 21] Is a directory: " + PyRepr(apk)))
  {
    var signed := SignedPath(apk);
    if apk != "" && Resolve(cwd, apk) in host.files then
      if signed == apk then SignFailed(PyRepr(apk) + " and " + PyRepr(signed) + " are the same file")
      else Signed(signed)
    else if apk != "" && Resolve(cwd, apk) in host.dirs then
      if signed == apk && (Basename(apk) == "" || Basename(apk) == ".") then
        SignFailed(PyRepr(apk) + " and " + PyRepr(Join(apk, Basename(apk))) + " are the same file")
      else SignFailed("[Errno 21] Is a directory: " + PyRepr(apk))
    else SignFailed("[Errno 2] No such file or directory: " + PyRepr(apk))
  }

  /** Signing succeeds exactly for an existing file whose path contains ".apk";
      the signed path is the path with every ".apk" replaced. An existing file
      whose path has no ".apk" is refused as a copy onto itself. */
  lemma SignApkIff(host: Host, cwd: Path, apk: Path)
    ensures var r := SignApk(host, cwd, apk);
      && (r.Signed? <==> Contains(apk, ".apk") && apk != "" && Resolve(cwd, apk) in host.files)
      && (r.Signed? ==> r.signedApk == JoinWith("-signed.apk", SplitOn(apk, ".apk")))
      && (apk != "" && Resolve(cwd, apk) in host.files && !Contains(apk, ".apk")
          ==> r == SignFailed(PyRepr(apk) + " and " + PyRepr(apk) + " are the same file"))
  {
    ReplaceLength(apk, ".apk", "-signed.apk");
    if !Contains(apk, ".apk") {
      ReplaceAbsent(apk, ".apk", "-signed.apk");
    }
    ReplaceIsJoinOfSplit(apk, ".apk", "-signed.apk");
  }

  /** The streaming loop of `build_apk`: every output line, passed through `clean`
      (`str.strip` there), kept in order. */
  method CollectOutput<L, C>(clean: L -> C, lines: seq<L>) returns (buildOutput: seq<C>)
    ensures buildOutput == MapSeq(clean, lines)
  {
    buildOutput := [];
    for i := 0 to |lines|
      invariant buildOutput == MapSeq(clean, lines[..i])
    {
      assert lines[..i + 1] == lines[..i] + [lines[i]];
      MapSeqSnoc(clean, lines[..i], lines[i]);
      buildOutput := buildOutput + [clean(lines[i])];
    }
    assert lines[..|lines|] == lines;
  }

  // ---------------------------------------------------------------------------
  // The builder

  class AndroidApkBuilder {
    var androidSdkPath: Option<string>
    var projectCount: nat
    /** The process's working directory, which `build_apk` changes and restores. */
    var cwd: Path

    /** `android_sdk_path or os.environ.get('ANDROID_SDK_PATH')`. */
    constructor(configured: Option<string>, envSdk: Option<string>, cwd0: Path)
      ensures androidSdkPath == (if Truthy(configured) then configured else envSdk)
      ensures projectCount == 0 && cwd == cwd0
    {
      androidSdkPath := if Truthy(configured) then configured else envSdk;
      projectCount := 0;
      cwd := cwd0;
    }

    /** `_check_android_sdk`: the first usable candidate is stored; with none, the
        field is left as it was. */
    method CheckAndroidSdk(host: Host) returns (ok: bool)
      modifies this
      ensures var found := FirstSdk(host, cwd, SdkCandidates(old(androidSdkPath), host.home));
        && ok == found.Some?
        && androidSdkPath == (if found.Some? then found else old(androidSdkPath))
      ensures cwd == old(cwd) && projectCount == old(projectCount)
    {
      var paths := SdkCandidates(androidSdkPath, host.home);
      for i := 0 to |paths|
        invariant androidSdkPath == old(androidSdkPath) && cwd == old(cwd) && projectCount == old(projectCount)
        invariant FirstSdk(host, cwd, paths) == FirstSdk(host, cwd, paths[i..])
      {
        assert paths[i..][1..] == paths[i + 1..];
        if UsableSdk(host, cwd, paths[i]) {
          androidSdkPath := paths[i];
          return true;
        }
      }
      return false;
    }

    /** `_check_gradle`: the wrapper in the working directory, else the system Gradle. */
    method CheckGradle(host: Host) returns (ok: bool)
      ensures ok <==> ExistsAt(host, cwd, "./gradlew") || host.gradleProbe == Some(0)
    {
      if ExistsAt(host, cwd, "./gradlew") {
        return true;
      }
      ok := host.gradleProbe == Some(0);
    }

    /** `check_environment`: ready exactly when Java, the SDK and Gradle all pass. */
    method CheckEnvironment(host: Host) returns (report: EnvReport)
      modifies this
      ensures var found := FirstSdk(host, cwd, SdkCandidates(old(androidSdkPath), host.home));
        && report == Report(JavaOk(host), found.Some?, ExistsAt(host, cwd, "./gradlew") || host.gradleProbe == Some(0))
        && androidSdkPath == (if found.Some? then found else old(androidSdkPath))
      ensures cwd == old(cwd) && projectCount == old(projectCount)
    {
      var java := JavaOk(host);
      var sdk := CheckAndroidSdk(host);
      var gradle := CheckGradle(host);
      report := Report(java, sdk, gradle);
    }

    /** `build_apk`. The working directory is the same afterwards on every path. */
    method BuildApk(host: Host, project: Path, buildType: string, run: RunResult)
      returns (inv: Option<Invocation>, result: BuildResult)
      modifies this
      ensures (inv, result) == BuildOutcome(old(androidSdkPath), old(cwd), host, project, buildType, run)
      ensures cwd == old(cwd) && androidSdkPath == old(androidSdkPath) && projectCount == old(projectCount)
    {
      var originalDir := cwd;
      var err := ChdirError(host, cwd, project);
      if err.Some? {
        return None, BuildError(err.value, None);
      }
      cwd := Resolve(cwd, project);
      var cmd := InvocationIn(host, cwd, androidSdkPath, buildType);
      inv := Some(cmd);
      if run.NotStarted? {
        cwd := originalDir;
        return inv, BuildError(run.message, None);
      }
      var buildOutput := CollectOutput(Strip, run.lines);
      cwd := originalDir;
      result := ReportBuild(host.listing, project, buildType, buildOutput, run.exitCode);
    }

    /** What `build_apk` returns after Gradle exited with `code`, from the stripped
        lines it collected: the tail as output, and the APK when the exit code is 0. */
    method ReportBuild(listing: seq<Path>, project: Path, buildType: string, buildOutput: seq<string>, code: int)
      returns (result: BuildResult)
      ensures forall lines :: Stripped(lines) == buildOutput ==> result == GradleResult(listing, project, buildType, lines, code)
    {
      var output := JoinWith("\n", LastN(buildOutput, TailLines));
      if code == 0 {
        var apk := FindApkFile(listing, project, buildType);
        if apk.Some? {
          result := BuildOk(apk.value, output);
        } else {
          result := BuildError("APK file not found after build", Some(output));
        }
      } else {
        result := BuildError(BuildFailedPrefix + IntToString(code), Some(output));
      }
    }

    /** `_find_apk_file`: the patterns in order, then the walk. */
    method FindApkFile(listing: seq<Path>, project: Path, buildType: string) returns (apk: Option<Path>)
      ensures apk == FindApk(listing, project, buildType)
    {
      var patterns := ApkPatterns(project, buildType);
      for i := 0 to |patterns|
        invariant FirstGlob(listing, patterns) == FirstGlob(listing, patterns[i..])
      {
        assert patterns[i..][1..] == patterns[i + 1..];
        var files := Glob(listing, patterns[i]);
        if files != [] {
          return Some(files[0]);
        }
      }
      for j := 0 to |listing|
        invariant FirstWalked(listing, project) == FirstWalked(listing[j..], project)
      {
        assert listing[j..][1..] == listing[j + 1..];
        if InWalk(listing[j], project) {
          return Some(listing[j]);
        }
      }
      return None;
    }
  }
}
