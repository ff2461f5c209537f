# RAHL APK Builder, modelled in Dafny

This project models the decision logic of the RAHL APK Builder. The builder is a
Flask service that turns a plain-language description of an Android app into a
generated Android project and a downloadable "APK".

The model covers three parts of the repository:

- **backend/app.py, the description classifier** (`Classifier`). The text is
  lower-cased and the keyword table is scanned. Every entry with a hit
  overwrites the type, so the last hit wins. The five feature tests run in their
  fixed order, and the package name is built from the first three words.
- **backend/app.py, scaffolding and the project record** (`Records`,
  `Templates`, `Store`, `Scaffold`, `Orchestrator`, `Api`).
  - `create_project` and the `generate_*` helpers are a straight-line run of
    `os.makedirs` and `open(...).write` calls on a `FileSystem` object. The
    calls go to a map of files and a set of directories.
  - Any `os.makedirs` or write call may raise, as fixed by a fault schedule,
    and the run stops at the first exception.
  - `build_project_thread` moves the metadata record through `building`/0,
    `generated`/50 and `completed`/100. On failure it records the `error`
    state.
  - The handlers `build_apk`, `get_project_status` and `download_apk` keep only
    their decision rules: validation, `apk_ready`, and the order in which the
    download candidates are tried.
- **backend/build.py** (`Invoker`). This is `AndroidAPKBuilder` as a class with
  the SDK path and the working directory as fields.
  - The machine is a value: the paths that exist, the order in which directory
    scans meet files, and the exit codes of the probes.
  - The Gradle run is an input: its output lines and exit code.
- **app.py, the older builder** (`Legacy`): the if/elif type chain, the template
  registry with its webview fallback, and the manifest customisation on a
  `Workspace` object.

`Text` and `Paths` define the Python string and path operations the code relies
on. The string operations are `in`, `lower`, `strip`, `split`, `replace`,
`join`, slicing and `repr`; the path operation is POSIX `os.path.join`. Every
cross-module fact is proved about these definitions.

Some of what the code does is easy to misread, so the model states it
outright:

- **The last keyword hit wins.** The `break` leaves only the inner loop, so a
  later entry with a hit overwrites an earlier one, and "todo game" is a game
  (`Classifier.ScanKeywords`, `Classifier.TodoGameIsGame`).
- **The package name is not filtered.** It is `com.rahl.` plus the first three
  words of the lower-cased text joined by dots, cut to 50 characters. The
  `replace(' ', '_')` cannot fire after `split()`, and the `lower()` changes
  nothing (`Classifier.PackageNameShape`).
- **The first record is `building` with an empty description.** The background
  thread writes it, and it passes `""` as the description
  (`Orchestrator.StartProject`, `Orchestrator.ThreadSucceeds`).
- **`error` is reachable from `building`.** A failure inside
  `generate_android_project` records `error` over the `building` record, with
  progress 0 (`Orchestrator.ThreadFailsGenerating`).
- **Download works before the build completes.** The dummy APK is written
  during scaffolding, so the download succeeds while the status still says
  `generated` (`Api.GeneratedDownloadsBeforeReady`).
- **A package component can escape the project.** `os.makedirs` at
  backend/app.py:154 joins the package's dot parts one by one, so a word such as
  `/tmp` in the text puts that directory outside the project
  (`Scaffold.PackageDirCanLeaveProject`). Every file written stays inside the
  project (`Scaffold.AnalysedScaffoldUnderProject`), because the activity path
  uses `replace('.', '/')` instead.

## Model

| member | source | states |
|---|---|---|
| Classifier.ScanKeywords | backend/app.py:73-89 | The nested loop leaves in `app_type` the type of the last table entry with a keyword hit, or `webview` with no hit (loop invariant against `LastHit`). |
| Classifier.LastHitAt | backend/app.py:83-89 | An entry with a hit and no hit in any later entry decides the type. |
| Classifier.LastHitNone | backend/app.py:83-89 | With no hit in any entry the type is the default. |
| Classifier.LaterHitOverrides | backend/app.py:85-89 | When a later entry also has a hit, an earlier entry with a hit is not the answer. |
| Classifier.LastHitFrom | backend/app.py:85-89 | A hit in entry `j` means some entry at or after `j` has a hit and no entry after it has one. |
| Classifier.TodoGameIsGame | backend/app.py:73-89 | "todo game" is classified as `game`, not `todo`. |
| Classifier.AnyHitIff | backend/app.py:86-87 | An entry hits exactly when one of its keywords is a substring of the text. |
| Classifier.CollectFeatures | backend/app.py:92-102 | The five tests append their features in the fixed order, each exactly when one of its keywords occurs. |
| Classifier.FeatureIff | backend/app.py:92-102 | A feature is in the list iff one of its keywords is a substring of the lower-cased text. |
| Classifier.FeaturesOrdered | backend/app.py:92-102 | The features are strictly ordered by the fixed order, so none occurs twice. |
| Classifier.FeaturesMonotonic | backend/app.py:92-102 | A feature detected in a text is detected in every text that contains it. |
| Classifier.PackageNameShape | backend/app.py:105-106 | The package name is the first 50 characters of `com.rahl.` plus the first three words joined by dots; it starts with `com.rahl.` and has at most 50 characters. |
| Classifier.AnalyzeDescription | backend/app.py:68-113 | The result's type, features, package name and `detected_features == len(features)` are those of the definitions above. |
| Records.AdvancesForward | backend/app.py:123-146 | A legal record move keeps the record consistent, never lowers progress, and every move except to `error` goes exactly one stage forward. |
| Records.Lifecycle | backend/app.py:123-146 | The `building`/0 record is consistent; `generated`/50, `completed`/100 with the APK path, and `error` from either step are legal moves; `error` keeps progress. |
| Templates.KindsAgree | backend/app.py:217-412 | Calculator, webview and todo get their own activity and layout; notes, weather and game share the default pair, which names the type. |
| Templates.AppNamesCover | backend/app.py:679-688 | Every app type has its own `app_name`, so the `Rahl App` fallback is never used. |
| Store.FileSystem.MakeDirs | backend/app.py:120 | One `os.makedirs` call: it creates the directory, or raises the scheduled exception and changes nothing. |
| Store.FileSystem.Write | backend/app.py:135-136 | One `open(p, 'w').write(c)`: it sets the file, or raises the scheduled exception and changes nothing. |
| Store.RunFaultFree | backend/app.py:150-175 | A run with no fault writes the last content of every written path and creates every directory. |
| Store.RunFaultAt | backend/app.py:150-175 | A run whose `k`-th call raises leaves exactly what the first `k` calls did, and reports that call's exception. |
| Store.RunAppend | backend/app.py:150-175 | Running two call sequences one after the other is running their concatenation; the second runs only if the first raised nothing. |
| Store.RunKeepsOtherFiles | backend/app.py:150-175 | A path that no call writes keeps its contents, whatever faults happen. |
| Scaffold.MakeAndroidDirs | backend/app.py:153-157 | The four `os.makedirs` calls, in order, as the call sequence `AndroidDirsOps`. |
| Scaffold.GenerateManifest | backend/app.py:177-208 | The manifest directory, then the manifest for the package. |
| Scaffold.GenerateMainActivity | backend/app.py:210-416 | `java/<package with '.' replaced by '/'>`, then `MainActivity.java` of the kind the type selects. |
| Scaffold.WriteCalculatorStyles | backend/app.py:480-499 | The calculator's `values` directory, then `styles.xml`. |
| Scaffold.GenerateLayouts | backend/app.py:418-589 | The layout directory, the calculator styles only for `calculator`, then `activity_main.xml`. |
| Scaffold.GenerateBuildGradle | backend/app.py:591-672 | The `app` directory, then `app/build.gradle`, `build.gradle`, `settings.gradle` and `gradle.properties`. |
| Scaffold.GenerateStrings | backend/app.py:674-698 | The `values` directory, then `strings.xml` with the type's app name. |
| Scaffold.CreateDummyApk | backend/app.py:700-724 | The debug output directory, then the dummy text APK at `app-debug.apk`. |
| Scaffold.GenerateAndroidProject | backend/app.py:150-175 | The helpers in order, stopping at the first exception, as the call sequence `ProjectOps`. |
| Scaffold.ScaffoldWrites | backend/app.py:150-175 | The files a full scaffold leaves are `ScaffoldFiles(project, type, package)`; features do not matter. |
| Scaffold.ScaffoldKeys | backend/app.py:150-175 | Scaffolding writes the common files for every type, and writes `styles.xml` in addition exactly for `calculator`. |
| Scaffold.StylesOnlyForCalculator | backend/app.py:480-499 | `styles.xml` is written iff the type is `calculator`, with the calculator button styles. |
| Scaffold.ScaffoldApk | backend/app.py:174-175 | Scaffolding always leaves the dummy APK at the conventional debug path. |
| Scaffold.PathsEndWithNames | backend/app.py:204-705 | Each generated path ends with its file name (manifest, activity, styles, layout, the Gradle files, strings, APK, metadata). |
| Scaffold.MetadataNotScaffolded | backend/app.py:135 | `metadata.json` is none of the scaffolded files, so scaffolding never overwrites the record. |
| Scaffold.ScaffoldRerun | backend/app.py:150-175 | A second fault-free scaffold of the same project leaves exactly the files of the first. |
| Scaffold.ScaffoldUnderProject | backend/app.py:150-175 | For a package that does not start with `.` or `/`, every scaffolded file lies under the project directory. |
| Scaffold.AnalysedScaffoldUnderProject | backend/app.py:105-106 | With a package name from `analyze_description`, every scaffolded file lies under the project directory. |
| Scaffold.PackageDirCanLeaveProject | backend/app.py:154 | The package `com.rahl./tmp` makes the `java` directory `/tmp`, outside the project. |
| Orchestrator.StartProject | backend/app.py:117-136 | The project directory, then the `building` record. |
| Orchestrator.CreateProject | backend/app.py:115-148 | The project directory, the `building` record, the Android project, then the `generated` record, stopping at the first exception. |
| Orchestrator.RecordFailure | backend/app.py:752-767 | The `except` branch: nothing without `metadata.json`, else the record reloaded and saved as `error` with the message. |
| Orchestrator.BuildProjectThread | backend/app.py:726-767 | The thread on the file system is `ThreadRun`: create, complete the record, or record the exception. |
| Orchestrator.CreateSucceeds | backend/app.py:115-148 | Without faults, `create_project` leaves the scaffolded files and the `generated`/50 record. |
| Orchestrator.ThreadSucceeds | backend/app.py:726-748 | Without faults, the thread ends `Built`, with the record `completed`/100 at the conventional APK path, and the dummy APK in place; the records written, `building`, `generated`, `completed`, are each a legal move from the one before. |
| Orchestrator.ThreadFailsEarly | backend/app.py:752-759 | When one of the first two calls raises there is no record yet: the thread writes nothing and the files are unchanged. |
| Orchestrator.ThreadFailsGenerating | backend/app.py:752-767 | When a call after the first record raises, the files are those of the calls made, with the record set to `error` with the message and progress 0, a legal move from `building`. |
| Orchestrator.ThreadFailsCompleting | backend/app.py:743-767 | When the completing write raises, the scaffolded files stay and the record is `error` over `generated`/50; `building` to `generated` to `error` are legal moves. |
| Orchestrator.FinishRecordsError | backend/app.py:752-767 | With a readable record, an exception from `create_project` is recorded as `error` with the message, and progress is left as it was. |
| Orchestrator.ThreadKeepsOtherFiles | backend/app.py:726-767 | The thread changes no file outside the scaffold and `metadata.json`. |
| Api.SubmitBuild | backend/app.py:797-812 | `build_apk` answers 400 or 500 on every refusal; an accepted request carries a string description, and its id is the first 8 characters of the uuid; a body that is not an object is never accepted. |
| Api.HandleBuild | backend/app.py:815-820 | The answer is that of the validation; a refused request leaves the file system as it was, and an accepted one leaves what the background thread leaves. |
| Api.SubmitAcceptsIff | backend/app.py:799-812 | A request is accepted iff it carries a string description whose stripped form has at least 5 characters; the id is the first 8 characters of the uuid and the analysis is that of the stripped text. |
| Api.SubmitRejects | backend/app.py:801-806 | A missing description gives 400 "Missing description"; a stripped description shorter than 5 gives 400 "Description too short". |
| Api.PaddedShortIsRejected | backend/app.py:804-806 | Surrounding whitespace does not count: `"  abc \n"` is too short. |
| Api.RejectedWritesNothing | backend/app.py:801-820 | A rejected request starts no thread and leaves the file system unchanged. |
| Api.NonObjectRejected | backend/app.py:799-833 | A body that is not an object is refused: 500 with the exception text when reading it raises, for a true number or boolean (`in` on a non-iterable), and for a list or string in which `"description"` is found (indexing it by a string); otherwise 400 "Missing description". |
| Api.ProjectStatus | backend/app.py:836-859 | 404 exactly when `metadata.json` is absent; a stored JSON record is always reported, as itself, with `apk_ready` true iff its `apk_path` is set, non-empty and names an existing file; the 500 comes only from metadata that is not JSON, with the decoding error. |
| Api.DownloadApk | backend/app.py:862-889 | A sent file exists and is named `rahl_<id>.apk`; the conventional APK path is sent whenever it exists; an exception is raised only for a metadata file that is not JSON. |
| Api.DownloadResolves | backend/app.py:861-889 | The download sends the conventional APK if it exists, else the record's `apk_path` if it is set and exists, else 404; anything sent exists. |
| Api.FirstExistingIsFirst | backend/app.py:867-889 | The chosen candidate exists and no earlier candidate does; none is chosen iff none exists. |
| Api.BuiltProjectIsReady | backend/app.py:835-889 | After a fault-free thread the status is `completed` with `apk_ready` true, and the download sends the dummy APK. |
| Api.GeneratedDownloadsBeforeReady | backend/app.py:835-889 | After `create_project` alone, the status is `generated` with `apk_ready` false, yet the download already sends the dummy APK. |
| Invoker.AndroidApkBuilder.constructor | backend/build.py:15-17 | The SDK path is the argument if truthy, else the environment's; no project is counted. |
| Invoker.FirstSdkIsFirst | backend/build.py:51-55 | The chosen SDK location is usable and no earlier one is; none is chosen iff none is usable. |
| Invoker.AndroidApkBuilder.CheckAndroidSdk | backend/build.py:42-55 | The result says whether some candidate exists; the first such is stored, else the field is unchanged. |
| Invoker.AndroidApkBuilder.CheckGradle | backend/build.py:57-68 | Gradle is available iff `./gradlew` exists or `gradle --version` exits with 0. |
| Invoker.Report | backend/build.py:27-32 | `status` is true iff all three checks pass, and the message is `Environment ready` iff status is true. |
| Invoker.AndroidApkBuilder.CheckEnvironment | backend/build.py:19-40 | The report of the Java, SDK and Gradle checks, with the SDK field updated as `_check_android_sdk` does. |
| Invoker.CommandChoice | backend/build.py:73-90 | Once `chdir` succeeds: `./gradlew` iff it exists in the project, else `gradle`; `assembleRelease` iff the build type is `release`, else `assembleDebug`; the SDK variables are set iff an SDK path is known. |
| Invoker.CollectOutput | backend/build.py:106-109 | The collected output is every line, stripped, in order. |
| Invoker.TailKeepsLastLines | backend/build.py:126 | The output is the last min(20, n) lines, stripped, joined with newlines. |
| Invoker.BuildOutputIsTail | backend/build.py:116-147 | Every result after the process ran carries that tail; an exception result carries no output. |
| Invoker.BuildSucceedsIff | backend/build.py:116-133 | Success iff `chdir` succeeds, the process starts, exits with 0, and an APK is found; the APK path ends with `.apk` and was listed. |
| Invoker.ExitCodeInMessage | backend/build.py:134-140 | A non-zero exit gives `Build failed with exit code N` with the decimal digits of N. |
| Invoker.AndroidApkBuilder.BuildApk | backend/build.py:70-150 | The invocation and the result are `BuildOutcome`; the working directory after the call is the one before it, on every path. |
| Invoker.Glob | backend/build.py:160-165 | The matches are listed files that match the pattern, and there is one whenever some listed file matches. |
| Invoker.FirstGlobShape | backend/build.py:160-165 | The result matches some pattern, no earlier pattern matches any file, and there is none iff no pattern matches. |
| Invoker.FirstWalkedShape | backend/build.py:167-173 | The walk returns a listed file under the project ending in `.apk`, and none iff there is no such file. |
| Invoker.AndroidApkBuilder.ReportBuild | backend/build.py:116-140 | After the process exits, the result is `GradleResult` of the lines collected: the found APK on exit 0, else the missing-APK or exit-code error, with the tail as output. |
| Invoker.AndroidApkBuilder.FindApkFile | backend/build.py:152-173 | The result is `FindApk`: the first matching pattern's first file, else the first walked `.apk`. |
| Invoker.FindApkShape | backend/build.py:152-173 | Any result is a listed path ending with `.apk`; none iff no file matches a pattern or the walk; without a pattern match it comes from the walk. |
| Invoker.SignApk | backend/build.py:175-193 | A missing path fails with `[Errno 2]` and a directory with `[Errno 21]`, each followed by `repr` of the path, except that a directory path without `.apk` whose base name is `""` or `.` is refused as a copy onto itself (`copy2` retargets it to the same directory); a signed path is the path with `.apk` replaced and differs from it. |
| Invoker.SignApkIff | backend/build.py:175-193 | Signing succeeds iff the path contains `.apk` and names an existing file, and the signed path has every `.apk` replaced by `-signed.apk`; an existing file whose path has no `.apk` is refused as a copy onto itself. |
| Legacy.DetectAppType | app.py:47-58 | The answer is one of calculator, notes, webview and game. |
| Legacy.DetectPriority | app.py:47-58 | `calculator` iff the text has "calculator"; `notes` iff it has "note" or "todo" and not "calculator"; `game` iff it has "game" and none of those nor "web"; otherwise `webview`. |
| Legacy.CalculatorWins | app.py:49-50 | Text containing "calculator" is a calculator whatever else it says. |
| Legacy.ChainDiffersFromTable | app.py:47-58 | "todo game" is `notes` for the chain but `game` for the keyword table of backend/app.py. |
| Legacy.SelectTemplate | app.py:66 | The template is a registry entry, and the webview entry for an unknown type. |
| Legacy.TemplateFallback | app.py:18-34 | Each detected type gets its own template except `game`, which gets the webview template. |
| Legacy.CustomizedManifestShape | app.py:92 | The rewrite cuts the manifest at every `com.rahl.template` and glues the pieces back with the package, `com.rahl.app` when none is given; a manifest without the placeholder comes back unchanged. |
| Legacy.CustomizeTouchesOnlyManifest | app.py:82-95 | Customisation changes only the manifest and nothing when there is none; of the errors modelled, it raises iff the manifest path is a directory, with `[Errno 21]` and `repr` of the path. |
| Legacy.Workspace.CustomizeProject | app.py:82-95 | The files and the error are those of `Customize`; the directories are unchanged. |
| Text.StripShape | backend/app.py:804 | `strip` keeps the part between a leading and a trailing run of whitespace, and it neither starts nor ends with whitespace. |
| Text.StripIdempotent | backend/app.py:804 | Stripping twice is stripping once. |
| Text.WordsShape | backend/app.py:105 | `split()` gives non-empty words without whitespace, made of the text's characters. |
| Text.ReplaceIsJoinOfSplit | app.py:92 | `s.replace(a, b) == b.join(s.split(a))`. |
| Text.SplitJoinRoundTrip | app.py:92 | Joining the pieces of `split(a)` with `a` gives the text back. |
| Text.PyReprRoundTrip | backend/build.py:189-193 | The path in an exception's text is `repr` of it: quoted with `"` exactly when it holds a `'` and no `"`, and the escaped body reads back as the path. |
| Text.PyReprPlain | backend/build.py:189-193 | A path of printable ASCII without `'` or `\` is written between single quotes unchanged. |
| Paths.JoinEndsWith | backend/app.py:117 | `os.path.join(a, b)` ends with `b`. |
| Paths.JoinAssoc | backend/app.py:153-154 | Joining component by component equals joining the already-joined tail. |

## Left out

- The Flask transport: routes, CORS, `jsonify`, `send_file`, the error handlers, `home`, `get_templates`, `list_projects`, `/api/analyze`, `/health` and `app.run`. Only the rules inside `build_apk`, `get_project_status` and `download_apk` are modelled.
- Threading: the daemon thread is modelled as a sequential call after the request is accepted (`Api.HandleBuild`). Nothing runs concurrently with it.
- `uuid.uuid4()` and `datetime.now().isoformat()` are parameters (`uuid`, `createdAt`).
- Template bodies: the Java, XML and Gradle text is an opaque constructor of `Templates.Body` that keeps only the values it depends on (package name, kind, app name).
- Partial writes: a call that raises changes nothing except the call count. A half-written file is not modelled.
- `os.path.getsize` and the `apk_size` fields: sizes are not modelled.
- Reading `metadata.json` (backend/app.py:740-741, 760-761, 845-846, 878-879) never raises an I/O error in the model: the fault schedule numbers only `os.makedirs` and writes, so a permission error or a directory at that path is not modelled. Every thread ending is still reachable through a write fault.
- `json.load` of a non-JSON file is the one decoding error the model raises. A JSON file that is not a record cannot occur, since only records are dumped.
- Api.DownloadApk: the third-party `send_file` is a `Send` value; its MIME type and the absent MIME type in the fallback are not modelled.
- `request.json`: the body is given already parsed into `Api.Payload`. When reading it raises (a body that is not JSON, or not sent as JSON), the exception is raised inside the handler's `try` and answered with 500 and its text; the model takes that text as a parameter (`Unreadable`) and does not derive Flask's wording. The Python 3.11 wording of the `TypeError` from indexing a string is used.
- Invoker.AndroidApkBuilder.BuildApk: subprocess, `glob` and `os.walk` are inputs. Glob metacharacters in the project path or build type are not interpreted, and one listing order stands for both `glob` and `os.walk`.
- `_check_java`: the probe's exit code is an input (`Host.javaProbe`), and an exception is `None`.
- `Text.PyRepr` escapes as CPython does for the characters up to U+00FF; every character above U+00FF is taken as printable and written as itself, whereas CPython also escapes the unprintable ones there as `\u` or `\U`.
- Invoker.SignApk: `shutil.copy2` is not tracked on the host, so the signed copy does not appear in its files afterwards. Errors other than a missing source, a directory source and a copy onto itself are not modelled: a missing directory or a permission error on the target, and a target that is an existing directory (which `copy2` writes into) count as a successful copy. Paths are compared as strings, so a directory spelled with `..` that is the file-system root, or reached through a symbolic link, is not recognised as its own destination.
- The CLI block of backend/build.py and every `print`.
- `project_count` is set to 0 and never used, so no method changes it.
- Paths are not normalised. `..` and repeated slashes are kept as written, and the working directory resolves relative paths by string join (`Paths.Resolve`).
- `Text.Lower` lower-cases only the ASCII letters. Python's `str.lower` also maps other Unicode letters.
- Legacy.Workspace.CustomizeProject: the only error modelled is a directory at the manifest path. A permission error on either `open`, a `UnicodeDecodeError` from `f.read()`, and a failed `f.write` (after `open(..., 'w')` has already emptied the manifest) are not modelled; like every exception there, they would propagate to the caller.
- Legacy.CustomizeTouchesOnlyManifest: its "raises iff the manifest path is a directory" covers only the directory error, for the reasons on the line above.
- `analyze_intent` and `generate_project` of app.py call `extract_features`, `extract_design_preferences`, `generate_package_name`, `copy_template` and `self.build_apk`. None of these is defined, so both methods raise when called. Only the type chain, the template lookup and `customize_project` are modelled.
- The `build_apk` and `download_apk` routes of app.py are Flask transport.
