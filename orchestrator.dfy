/** `create_project` and `build_project_thread` of backend/app.py: the metadata
    record is written, the Android project generated, the record moved to
    `generated` and then `completed`, and any exception on the way turned into
    an `error` record when `metadata.json` exists. The thread runs as one
    sequential call on the file system. */
module Orchestrator {
  import opened Wrappers
  import opened Paths
  import opened Classifier
  import opened Records
  import opened Templates
  import opened Store
  import opened Scaffold

  function ProjectDir(projectsDir: Path, id: string): Path {
    Join(projectsDir, id)
  }

  /** What `json.load` raises on a file that does not start a JSON value, as none
      of the generated bodies does. */
  const JsonDecodeError := "Expecting value: line 1 column 1 (char 0)"

  function StartOps(project: Path, r0: Record): seq<Op> {
    [ MakeDirs(project), Put(MetadataPath(project), Json(r0)) ]
  }

  /** `create_project`: the project directory, the `building` record, the Android
      project, then the `generated` record. */
  function CreateOps(project: Path, r0: Record): seq<Op> {
    StartOps(project, r0) + (ProjectOps(project, r0.appType, r0.packageName) + [ Put(MetadataPath(project), Json(MarkGenerated(r0))) ])
  }

  /** How the thread ends: the project completed; an exception recorded in the
      metadata; an exception with no metadata file to record it in; or an
      exception raised by the handler itself, which ends the thread. */
  datatype Ending = Built | Failed(message: string) | Unrecorded(message: string) | Crashed(message: string)

  datatype ThreadResult = ThreadResult(disk: Disk, ending: Ending)

  /** The `except` branch: reload the record, mark it `error` with the message and
      save it, when `metadata.json` exists. */
  function RecordError(d: Disk, faults: Faults, meta: Path, message: string): ThreadResult {
    if meta !in d.files then ThreadResult(d, Unrecorded(message))
    else match d.files[meta]
      case Text(_) => ThreadResult(d, Crashed(JsonDecodeError))
      case Json(r) =>
        var s := Step(d, faults, Put(meta, Json(MarkError(r, message))));
        if s.error.Some? then ThreadResult(s.disk, Crashed(s.error.value)) else ThreadResult(s.disk, Failed(message))
  }

  /** The record a successful build run writes: the given record marked completed,
      with the conventional debug APK of the project. */
  function Completion(project: Path, r: Record): Record {
    MarkCompleted(r, ApkPath(project))
  }

  /** `build_project_thread` for an analysis, on the file system `d`. */
  function ThreadRun(d: Disk, faults: Faults, projectsDir: Path, id: string, a: Analysis, createdAt: string): ThreadResult {
    var project := ProjectDir(projectsDir, id);
    var r0 := Initial(id, a.appType, a.packageName, a.features, "", createdAt);
    Finish(Run(d, faults, CreateOps(project, r0)), faults, project)
  }

  /** The rest of `build_project_thread` once `create_project` returned or raised. */
  function Finish(c: Outcome, faults: Faults, project: Path): ThreadResult {
    var meta := MetadataPath(project);
    if c.error.Some? then RecordError(c.disk, faults, meta, c.error.value)
    else if meta !in c.disk.files then ThreadResult(c.disk, Built)
    else match c.disk.files[meta]
      case Text(_) => RecordError(c.disk, faults, meta, JsonDecodeError)
      case Json(r) =>
        var s := Step(c.disk, faults, Put(meta, Json(Completion(project, r))));
        if s.error.Some? then RecordError(s.disk, faults, meta, s.error.value) else ThreadResult(s.disk, Built)
  }

  // ---------------------------------------------------------------------------
  // What a run leaves

  lemma GenerateThenMarkWrites(project: Path, r0: Record)
    ensures Written(ProjectOps(project, r0.appType, r0.packageName) + [Put(MetadataPath(project), Json(MarkGenerated(r0)))])
      == ScaffoldFiles(project, r0.appType, r0.packageName) + map[MetadataPath(project) := Json(MarkGenerated(r0))]
  {
    var meta := MetadataPath(project);
    var last := [Put(meta, Json(MarkGenerated(r0)))];
    ScaffoldWrites(project, r0.appType, r0.packageName);
    WrittenSinglePut(meta, Json(MarkGenerated(r0)));
    WrittenPair(ProjectOps(project, r0.appType, r0.packageName), last,
                ScaffoldFiles(project, r0.appType, r0.packageName), map[meta := Json(MarkGenerated(r0))]);
  }

  /** `create_project` writes the `building` record, the project, and the
      `generated` record over the first one. */
  lemma CreateWrites(project: Path, r0: Record)
    ensures Written(CreateOps(project, r0))
      == map[MetadataPath(project) := Json(r0)]
         + (ScaffoldFiles(project, r0.appType, r0.packageName) + map[MetadataPath(project) := Json(MarkGenerated(r0))])
  {
    var meta := MetadataPath(project);
    WrittenDirThenPut(project, meta, Json(r0));
    GenerateThenMarkWrites(project, r0);
    WrittenPair(StartOps(project, r0), ProjectOps(project, r0.appType, r0.packageName) + [Put(meta, Json(MarkGenerated(r0)))],
                map[meta := Json(r0)], ScaffoldFiles(project, r0.appType, r0.packageName) + map[meta := Json(MarkGenerated(r0))]);
  }

  /** Two writes to `meta` around `s`: only the second is left. */
  lemma OverwrittenOnce(files: map<Path, Content>, s: map<Path, Content>, meta: Path, a: Content, b: Content)
    ensures files + (map[meta := a] + (s + map[meta := b])) == (files + s)[meta := b]
  {
  }

  /** A second update of the same key replaces the first. */
  lemma UpdatedTwice(files: map<Path, Content>, meta: Path, b: Content, c: Content)
    ensures files[meta := b][meta := c] == files[meta := c]
  {
  }

  /** A `create_project` with no exception adds the project files and leaves the
      `generated` record in `metadata.json`. */
  lemma CreateSucceeds(d: Disk, faults: Faults, project: Path, r0: Record)
    requires NoFaults(faults, d.attempts, d.attempts + |CreateOps(project, r0)|)
    ensures var c := Run(d, faults, CreateOps(project, r0));
      && c.error.None?
      && c.disk.attempts == d.attempts + |CreateOps(project, r0)|
      && c.disk.files == (d.files + ScaffoldFiles(project, r0.appType, r0.packageName))[MetadataPath(project) := Json(MarkGenerated(r0))]
  {
    RunFaultFree(d, faults, CreateOps(project, r0));
    CreateWrites(project, r0);
    OverwrittenOnce(d.files, ScaffoldFiles(project, r0.appType, r0.packageName), MetadataPath(project), Json(r0), Json(MarkGenerated(r0)));
  }

  /** After a successful `create_project`, the record read back is completed. */
  lemma FinishCompletes(c: Outcome, faults: Faults, project: Path, r: Record)
    requires c.error.None? && MetadataPath(project) in c.disk.files && c.disk.files[MetadataPath(project)] == Json(r)
    requires c.disk.attempts !in faults
    ensures Finish(c, faults, project)
      == ThreadResult(Disk(c.disk.files[MetadataPath(project) := Json(Completion(project, r))], c.disk.dirs, c.disk.attempts + 1), Built)
  {
  }

  /** A `create_project` with no exception, then the `completed` record. */
  lemma CreateThenComplete(d: Disk, faults: Faults, project: Path, r0: Record)
    requires NoFaults(faults, d.attempts, d.attempts + |CreateOps(project, r0)| + 1)
    ensures var result := Finish(Run(d, faults, CreateOps(project, r0)), faults, project);
      && result.ending == Built
      && result.disk.files == (d.files + ScaffoldFiles(project, r0.appType, r0.packageName))
                              [MetadataPath(project) := Json(Completion(project, MarkGenerated(r0)))]
  {
    CreateSucceeds(d, faults, project, r0);
    var c := Run(d, faults, CreateOps(project, r0));
    FinishCompletes(c, faults, project, MarkGenerated(r0));
    UpdatedTwice(d.files + ScaffoldFiles(project, r0.appType, r0.packageName), MetadataPath(project),
                 Json(MarkGenerated(r0)), Json(Completion(project, MarkGenerated(r0))));
  }

  /** With no exception the thread ends `completed`: the project files are added,
      `metadata.json` holds the completed record with the conventional debug APK,
      and that APK is the stand-in scaffolding wrote. */
  lemma ThreadSucceeds(d: Disk, faults: Faults, projectsDir: Path, id: string, a: Analysis, createdAt: string)
    requires NoFaults(faults, d.attempts,
                      d.attempts + |CreateOps(ProjectDir(projectsDir, id), Initial(id, a.appType, a.packageName, a.features, "", createdAt))| + 1)
    ensures var project := ProjectDir(projectsDir, id);
      var r0 := Initial(id, a.appType, a.packageName, a.features, "", createdAt);
      var result := ThreadRun(d, faults, projectsDir, id, a, createdAt);
      && result.ending == Built
      && result.disk.files == (d.files + ScaffoldFiles(project, a.appType, a.packageName))
                              [MetadataPath(project) := Json(Completion(project, MarkGenerated(r0)))]
      && result.disk.files[ApkPath(project)] == Text(DummyApk)
      && Advances(r0, MarkGenerated(r0)) && Advances(MarkGenerated(r0), Completion(project, MarkGenerated(r0)))
  {
    var project := ProjectDir(projectsDir, id);
    var r0 := Initial(id, a.appType, a.packageName, a.features, "", createdAt);
    Lifecycle(id, a.appType, a.packageName, a.features, "", createdAt, ApkPath(project), "");
    CreateThenComplete(d, faults, project, r0);
    MetadataPathIsOwn(project, a.packageName);
    ScaffoldApk(project, a.appType, a.packageName);
    UpdateKeepsOther(d.files, ScaffoldFiles(project, a.appType, a.packageName), MetadataPath(project),
                     Json(Completion(project, MarkGenerated(r0))), ApkPath(project));
  }

  /** An update of one path leaves what the union holds at any other. */
  lemma UpdateKeepsOther(files: map<Path, Content>, s: map<Path, Content>, meta: Path, v: Content, p: Path)
    requires p in s && p != meta
    ensures (files + s)[meta := v][p] == s[p]
  {
  }

  /** With no metadata file to record it in, an exception changes nothing more. */
  lemma RecordErrorWithoutMetadata(d: Disk, faults: Faults, meta: Path, message: string)
    requires meta !in d.files
    ensures RecordError(d, faults, meta, message) == ThreadResult(d, Unrecorded(message))
  {
  }

  /** The handler writes only `metadata.json`. */
  lemma RecordErrorKeeps(d: Disk, faults: Faults, meta: Path, message: string, p: Path)
    requires p != meta
    ensures var files := RecordError(d, faults, meta, message).disk.files;
      (p in files <==> p in d.files) && (p in d.files ==> files[p] == d.files[p])
  {
  }

  /** An exception at the first two calls (the project directory or the first
      record) of a fresh project leaves no record and no file. */
  lemma CreateFailsEarly(d: Disk, faults: Faults, project: Path, r0: Record, k: nat)
    requires MetadataPath(project) !in d.files
    requires k < 2 && d.attempts + k in faults && NoFaults(faults, d.attempts, d.attempts + k)
    ensures var result := Finish(Run(d, faults, CreateOps(project, r0)), faults, project);
      && result.ending == Unrecorded(faults[d.attempts + k])
      && result.disk.files == d.files
  {
    FailsBeforeRecord(d, faults, project, r0,
                      ProjectOps(project, r0.appType, r0.packageName) + [ Put(MetadataPath(project), Json(MarkGenerated(r0))) ], k);
  }

  /** Whatever follows the first two calls, a fault at one of them leaves no file. */
  lemma FailsBeforeRecord(d: Disk, faults: Faults, project: Path, r0: Record, rest: seq<Op>, k: nat)
    requires MetadataPath(project) !in d.files
    requires k < 2 && d.attempts + k in faults && NoFaults(faults, d.attempts, d.attempts + k)
    ensures var result := Finish(Run(d, faults, StartOps(project, r0) + rest), faults, project);
      && result.ending == Unrecorded(faults[d.attempts + k])
      && result.disk.files == d.files
  {
    var ops := StartOps(project, r0) + rest;
    RunFaultAt(d, faults, ops, k);
    assert ops[..k] == StartOps(project, r0)[..k];
    assert Written(ops[..k]) == map[] by {
      if k == 1 {
        assert ops[..1][1..] == [];
      }
    }
    UnionEmpty(d.files);
  }

  lemma ThreadFailsEarly(d: Disk, faults: Faults, projectsDir: Path, id: string, a: Analysis, createdAt: string, k: nat)
    requires MetadataPath(ProjectDir(projectsDir, id)) !in d.files
    requires k < 2 && d.attempts + k in faults && NoFaults(faults, d.attempts, d.attempts + k)
    ensures var result := ThreadRun(d, faults, projectsDir, id, a, createdAt);
      && result.ending == Unrecorded(faults[d.attempts + k])
      && result.disk.files == d.files
  {
    CreateFailsEarly(d, faults, ProjectDir(projectsDir, id), Initial(id, a.appType, a.packageName, a.features, "", createdAt), k);
  }

  /** Once the first record is written and before the `generated` one is, the
      files so far hold the first record. */
  lemma PrefixHoldsFirstRecord(project: Path, r0: Record, k: nat)
    requires 2 <= k < |CreateOps(project, r0)|
    ensures var w := Written(CreateOps(project, r0)[..k]);
      MetadataPath(project) in w && w[MetadataPath(project)] == Json(r0)
  {
    var gen := ProjectOps(project, r0.appType, r0.packageName);
    ScaffoldWrites(project, r0.appType, r0.packageName);
    MetadataNotScaffolded(project, r0.appType, r0.packageName);
    RecordSurvives(project, MetadataPath(project), r0, gen, [Put(MetadataPath(project), Json(MarkGenerated(r0)))], k);
  }

  /** The record written second stays while only calls that do not write it follow. */
  lemma RecordSurvives(dir: Path, meta: Path, r0: Record, gen: seq<Op>, tail: seq<Op>, k: nat)
    requires 2 <= k <= 2 + |gen| && meta !in Written(gen)
    ensures var w := Written(([MakeDirs(dir), Put(meta, Json(r0))] + (gen + tail))[..k]);
      meta in w && w[meta] == Json(r0)
  {
    var start := [MakeDirs(dir), Put(meta, Json(r0))];
    var pre := gen[..k - 2];
    WrittenPrefixKeys(gen, k - 2);
    assert meta !in Written(pre);
    WrittenAppend(start, pre);
    WrittenDirThenPut(dir, meta, Json(r0));
    assert Written(start + pre) == map[meta := Json(r0)] + Written(pre);
    assert (start + (gen + tail))[..k] == start + pre;
  }

  /** Any run of calls that raises at call `k` after a record is in place: the
      exception is recorded in that record. */
  lemma FailsAfterRecord(d: Disk, faults: Faults, ops: seq<Op>, k: nat, project: Path, r: Record)
    requires k < |ops| && d.attempts + k in faults && NoFaults(faults, d.attempts, d.attempts + k) && d.attempts + k + 1 !in faults
    requires MetadataPath(project) in Written(ops[..k]) && Written(ops[..k])[MetadataPath(project)] == Json(r)
    ensures var result := Finish(Run(d, faults, ops), faults, project);
      && result.ending == Failed(faults[d.attempts + k])
      && result.disk.files == (d.files + Written(ops[..k]))[MetadataPath(project) := Json(MarkError(r, faults[d.attempts + k]))]
  {
    RunFaultAt(d, faults, ops, k);
    FinishRecordsError(Run(d, faults, ops), faults, project, r);
  }

  /** An exception while generating the project, or while writing the `generated`
      record, is recorded: the first record, marked `error` with the message. */
  lemma CreateFailsGenerating(d: Disk, faults: Faults, project: Path, r0: Record, k: nat)
    requires 2 <= k < |CreateOps(project, r0)|
    requires d.attempts + k in faults && NoFaults(faults, d.attempts, d.attempts + k) && d.attempts + k + 1 !in faults
    ensures var result := Finish(Run(d, faults, CreateOps(project, r0)), faults, project);
      && result.ending == Failed(faults[d.attempts + k])
      && result.disk.files == (d.files + Written(CreateOps(project, r0)[..k]))
                              [MetadataPath(project) := Json(MarkError(r0, faults[d.attempts + k]))]
  {
    PrefixHoldsFirstRecord(project, r0, k);
    FailsAfterRecord(d, faults, CreateOps(project, r0), k, project, r0);
  }

  lemma ThreadFailsGenerating(d: Disk, faults: Faults, projectsDir: Path, id: string, a: Analysis, createdAt: string, k: nat)
    requires 2 <= k < |CreateOps(ProjectDir(projectsDir, id), Initial(id, a.appType, a.packageName, a.features, "", createdAt))|
    requires d.attempts + k in faults && NoFaults(faults, d.attempts, d.attempts + k) && d.attempts + k + 1 !in faults
    ensures var project := ProjectDir(projectsDir, id);
      var r0 := Initial(id, a.appType, a.packageName, a.features, "", createdAt);
      var result := ThreadRun(d, faults, projectsDir, id, a, createdAt);
      && result.ending == Failed(faults[d.attempts + k])
      && result.disk.files == (d.files + Written(CreateOps(project, r0)[..k]))
                              [MetadataPath(project) := Json(MarkError(r0, faults[d.attempts + k]))]
      && Advances(r0, MarkError(r0, faults[d.attempts + k]))
  {
    Lifecycle(id, a.appType, a.packageName, a.features, "", createdAt, "", faults[d.attempts + k]);
    CreateFailsGenerating(d, faults, ProjectDir(projectsDir, id), Initial(id, a.appType, a.packageName, a.features, "", createdAt), k);
  }

  /** An exception while writing the `completed` record leaves the `generated`
      record marked `error`, next to the whole project. */
  lemma CreateFailsCompleting(d: Disk, faults: Faults, project: Path, r0: Record)
    requires NoFaults(faults, d.attempts, d.attempts + |CreateOps(project, r0)|)
    requires d.attempts + |CreateOps(project, r0)| in faults && d.attempts + |CreateOps(project, r0)| + 1 !in faults
    ensures var message := faults[d.attempts + |CreateOps(project, r0)|];
      var result := Finish(Run(d, faults, CreateOps(project, r0)), faults, project);
      && result.ending == Failed(message)
      && result.disk.files == (d.files + ScaffoldFiles(project, r0.appType, r0.packageName))
                              [MetadataPath(project) := Json(MarkError(MarkGenerated(r0), message))]
  {
    CreateSucceeds(d, faults, project, r0);
    var message := faults[d.attempts + |CreateOps(project, r0)|];
    FinishCompletionFails(Run(d, faults, CreateOps(project, r0)), faults, project, MarkGenerated(r0));
    UpdatedTwice(d.files + ScaffoldFiles(project, r0.appType, r0.packageName), MetadataPath(project),
                 Json(MarkGenerated(r0)), Json(MarkError(MarkGenerated(r0), message)));
  }

  lemma ThreadFailsCompleting(d: Disk, faults: Faults, projectsDir: Path, id: string, a: Analysis, createdAt: string)
    requires var n := |CreateOps(ProjectDir(projectsDir, id), Initial(id, a.appType, a.packageName, a.features, "", createdAt))|;
      NoFaults(faults, d.attempts, d.attempts + n) && d.attempts + n in faults && d.attempts + n + 1 !in faults
    ensures var project := ProjectDir(projectsDir, id);
      var r0 := Initial(id, a.appType, a.packageName, a.features, "", createdAt);
      var message := faults[d.attempts + |CreateOps(ProjectDir(projectsDir, id), Initial(id, a.appType, a.packageName, a.features, "", createdAt))|];
      var result := ThreadRun(d, faults, projectsDir, id, a, createdAt);
      && result.ending == Failed(message)
      && result.disk.files == (d.files + ScaffoldFiles(project, a.appType, a.packageName))
                              [MetadataPath(project) := Json(MarkError(MarkGenerated(r0), message))]
      && Advances(r0, MarkGenerated(r0)) && Advances(MarkGenerated(r0), MarkError(MarkGenerated(r0), message))
  {
    var project := ProjectDir(projectsDir, id);
    var r0 := Initial(id, a.appType, a.packageName, a.features, "", createdAt);
    CreateFailsCompleting(d, faults, project, r0);
    Lifecycle(id, a.appType, a.packageName, a.features, "", createdAt, "", faults[d.attempts + |CreateOps(project, r0)|]);
  }

  /** After `create_project`, the thread writes only `metadata.json`. */
  lemma FinishKeeps(c: Outcome, faults: Faults, project: Path, p: Path)
    requires p != MetadataPath(project)
    ensures var files := Finish(c, faults, project).disk.files;
      (p in files <==> p in c.disk.files) && (p in c.disk.files ==> files[p] == c.disk.files[p])
  {
    var meta := MetadataPath(project);
    if c.error.Some? {
      RecordErrorKeeps(c.disk, faults, meta, c.error.value, p);
    } else if meta in c.disk.files && c.disk.files[meta].Text? {
      RecordErrorKeeps(c.disk, faults, meta, JsonDecodeError, p);
    } else if meta in c.disk.files {
      var s := Step(c.disk, faults, Put(meta, Json(Completion(project, c.disk.files[meta].record))));
      if s.error.Some? {
        RecordErrorKeeps(s.disk, faults, meta, s.error.value, p);
      }
    }
  }

  /** An exception raised by `create_project` is recorded in the record it left. */
  lemma FinishRecordsError(c: Outcome, faults: Faults, project: Path, r: Record)
    requires c.error.Some? && MetadataPath(project) in c.disk.files && c.disk.files[MetadataPath(project)] == Json(r)
    requires c.disk.attempts !in faults
    ensures Finish(c, faults, project)
      == ThreadResult(Disk(c.disk.files[MetadataPath(project) := Json(MarkError(r, c.error.value))], c.disk.dirs, c.disk.attempts + 1),
                      Failed(c.error.value))
  {
  }

  /** An exception writing the `completed` record is recorded over the record read. */
  lemma FinishCompletionFails(c: Outcome, faults: Faults, project: Path, r: Record)
    requires c.error.None? && MetadataPath(project) in c.disk.files && c.disk.files[MetadataPath(project)] == Json(r)
    requires c.disk.attempts in faults && c.disk.attempts + 1 !in faults
    ensures Finish(c, faults, project)
      == ThreadResult(Disk(c.disk.files[MetadataPath(project) := Json(MarkError(r, faults[c.disk.attempts]))], c.disk.dirs, c.disk.attempts + 2),
                      Failed(faults[c.disk.attempts]))
  {
    var meta := MetadataPath(project);
    var s := Step(c.disk, faults, Put(meta, Json(Completion(project, r))));
    assert s == Outcome(c.disk.(attempts := c.disk.attempts + 1), Some(faults[c.disk.attempts]));
    assert Finish(c, faults, project) == RecordError(s.disk, faults, meta, faults[c.disk.attempts]);
  }

  /** Whatever is raised and wherever, the thread touches no file outside the
      project's generated files and `metadata.json`. */
  lemma CreateKeepsOtherFiles(d: Disk, faults: Faults, project: Path, r0: Record, p: Path)
    requires p != MetadataPath(project) && p !in ScaffoldFiles(project, r0.appType, r0.packageName)
    ensures var files := Finish(Run(d, faults, CreateOps(project, r0)), faults, project).disk.files;
      (p in files <==> p in d.files) && (p in d.files ==> files[p] == d.files[p])
  {
    CreateWrites(project, r0);
    WrittenDomain(CreateOps(project, r0));
    RunKeepsOtherFiles(d, faults, CreateOps(project, r0), p);
    FinishKeeps(Run(d, faults, CreateOps(project, r0)), faults, project, p);
  }

  lemma ThreadKeepsOtherFiles(d: Disk, faults: Faults, projectsDir: Path, id: string, a: Analysis, createdAt: string, p: Path)
    requires p != MetadataPath(ProjectDir(projectsDir, id)) && p !in ScaffoldFiles(ProjectDir(projectsDir, id), a.appType, a.packageName)
    ensures var files := ThreadRun(d, faults, projectsDir, id, a, createdAt).disk.files;
      (p in files <==> p in d.files) && (p in d.files ==> files[p] == d.files[p])
  {
    CreateKeepsOtherFiles(d, faults, ProjectDir(projectsDir, id), Initial(id, a.appType, a.packageName, a.features, "", createdAt), p);
  }

  // ---------------------------------------------------------------------------
  // The methods

  /** The directory and the first record of `create_project`. */
  method StartProject(fs: FileSystem, project: Path, metadata: Record) returns (err: Option<string>)
    modifies fs
    ensures Outcome(fs.State(), err) == Run(old(fs.State()), fs.faults, StartOps(project, metadata))
  {
    ghost var d0 := fs.State();
    ghost var ops := StartOps(project, metadata);
    RunPrefixStep(d0, fs.faults, ops, 0);
    err := fs.MakeDirs(project);
    if err.Some? {
      RunPrefixStops(d0, fs.faults, ops, 1);
      return;
    }
    RunPrefixStep(d0, fs.faults, ops, 1);
    err := fs.Write(MetadataPath(project), Json(metadata));
    assert ops[..2] == ops;
  }

  /** `create_project`. The exception, if any, is returned. */
  method CreateProject(fs: FileSystem, projectsDir: Path, id: string, appType: AppType, packageName: string,
                       features: seq<Feature>, description: string, createdAt: string)
    returns (project: Path, err: Option<string>)
    modifies fs
    ensures project == ProjectDir(projectsDir, id)
    ensures Outcome(fs.State(), err)
      == Run(old(fs.State()), fs.faults, CreateOps(project, Initial(id, appType, packageName, features, description, createdAt)))
  {
    project := Join(projectsDir, id);
    var meta := MetadataPath(project);
    var metadata := Initial(id, appType, packageName, features, description, createdAt);
    ghost var last := [Put(meta, Json(MarkGenerated(metadata)))];
    RunAppend(fs.State(), fs.faults, StartOps(project, metadata), ProjectOps(project, appType, packageName) + last);
    err := StartProject(fs, project, metadata);
    if err.Some? {
      return;
    }
    RunAppend(fs.State(), fs.faults, ProjectOps(project, appType, packageName), last);
    err := GenerateAndroidProject(fs, project, appType, packageName, features);
    if err.Some? {
      return;
    }
    metadata := MarkGenerated(metadata);
    RunSnoc(fs.State(), fs.faults, [], Put(meta, Json(metadata)));
    err := fs.Write(meta, Json(metadata));
  }

  /** The `except` branch of `build_project_thread`. */
  method RecordFailure(fs: FileSystem, meta: Path, message: string) returns (ending: Ending)
    modifies fs
    ensures ThreadResult(fs.State(), ending) == RecordError(old(fs.State()), fs.faults, meta, message)
  {
    if !fs.Exists(meta) {
      return Unrecorded(message);
    }
    var content := fs.Read(meta);
    match content
    case Text(_) =>
      ending := Crashed(JsonDecodeError);
    case Json(r) =>
      var err := fs.Write(meta, Json(MarkError(r, message)));
      ending := if err.Some? then Crashed(err.value) else Failed(message);
  }

  /** `build_project_thread`. */
  method BuildProjectThread(fs: FileSystem, projectsDir: Path, id: string, a: Analysis, createdAt: string)
    returns (ending: Ending)
    modifies fs
    ensures ThreadResult(fs.State(), ending) == ThreadRun(old(fs.State()), fs.faults, projectsDir, id, a, createdAt)
  {
    var project, err := CreateProject(fs, projectsDir, id, a.appType, a.packageName, a.features, "", createdAt);
    var meta := MetadataPath(project);
    if err.Some? {
      ending := RecordFailure(fs, MetadataPath(ProjectDir(projectsDir, id)), err.value);
      return;
    }
    if !fs.Exists(meta) {
      return Built;
    }
    var content := fs.Read(meta);
    match content
    case Text(_) =>
      ending := RecordFailure(fs, MetadataPath(ProjectDir(projectsDir, id)), JsonDecodeError);
    case Json(r) =>
      err := fs.Write(meta, Json(MarkCompleted(r, JoinAll(project, ["app", "build", "outputs", "apk", "debug", "app-debug.apk"]))));
      if err.Some? {
        ending := RecordFailure(fs, MetadataPath(ProjectDir(projectsDir, id)), err.value);
      } else {
        ending := Built;
      }
  }
}
