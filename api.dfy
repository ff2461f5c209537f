/** The decision rules of the three HTTP handlers of backend/app.py that touch the
    build: `build_apk` validates the description and starts the thread,
    `get_project_status` reports the record with `apk_ready`, and `download_apk`
    picks the file to send. File existence is membership in the file map. */
module Api {
  import opened Wrappers
  import opened Text
  import opened Paths
  import opened Classifier
  import opened Records
  import opened Templates
  import opened Store
  import opened Scaffold
  import opened Orchestrator

  /** A JSON value inside the request body, as far as `.strip()` and `==` care. */
  datatype Value = Str(text: string) | NonString(typeName: string)

  /** What `request.json` gives the handler. Reading the body can itself raise
      (not a JSON media type, malformed JSON); the handler's own `try` catches
      that, so it is a message here. A number or a boolean is the Python value's
      truthiness and type name. */
  datatype Payload =
    | Unreadable(message: string)
    | Null
    | Object(fields: map<string, Value>)
    | Array(items: seq<Value>)
    | JString(s: string)
    | Scalar(truthy: bool, typeName: string)

  /** The answer of `build_apk`: an error and its HTTP code, or the new id and the
      analysis the thread is started with. */
  datatype Submission = Rejected(code: nat, message: string) | Accepted(id: string, analysis: Analysis)

  const MinDescriptionLength: nat := 5

  /** `build_apk`. `uuid` is the text of `uuid.uuid4()`. `not data` holds for
      `null` and every empty or zero value; `'description' in data` is a key test
      on an object, an element test on a list, a substring test on a string, and
      a `TypeError` on a number; indexing a list or a string by a string key is a
      `TypeError` too; every exception becomes a 500 with its text. */
  function SubmitBuild(payload: Payload, uuid: string): (r: Submission)
    ensures r.Rejected? ==> r.code == 400 || r.code == 500
    ensures r.Accepted? ==> HasDescription(payload) && r.id == Take(uuid, 8)
    ensures !payload.Object? ==> r.Rejected?
  {
    match payload
    case Unreadable(message) => Rejected(500, message)
    case Null => Rejected(400, "Missing description")
    case Scalar(truthy, typeName) =>
      if !truthy then Rejected(400, "Missing description")
      else Rejected(500, "argument of type '" + typeName + "' is not iterable")
    case Array(items) =>
      if items == [] || Str("description") !in items then Rejected(400, "Missing description")
      else Rejected(500, "list indices must be integers or slices, not str")
    case JString(s) =>
      if s == "" || !Contains(s, "description") then Rejected(400, "Missing description")
      else Rejected(500, "string indices must be integers, not 'str'")
    case Object(fields) =>
      if fields == map[] || "description" !in fields then Rejected(400, "Missing description")
      else match fields["description"]
        case NonString(t) => Rejected(500, "'" + t + "' object has no attribute 'strip'")
        case Str(s) =>
          var description := Strip(s);
          if |description| < MinDescriptionLength then Rejected(400, "Description too short")
          else Accepted(Take(uuid, 8), AnalysisOf(description))
  }

  /** A request and, when it is accepted, the whole background build. */
  function HandleBuild(d: Disk, faults: Faults, projectsDir: Path, payload: Payload, uuid: string, createdAt: string)
    : (r: (Submission, Disk))
    ensures r.0 == SubmitBuild(payload, uuid)
    ensures r.0.Rejected? ==> r.1 == d
    ensures r.0.Accepted? ==> r.1 == ThreadRun(d, faults, projectsDir, r.0.id, r.0.analysis, createdAt).disk
  {
    var sub := SubmitBuild(payload, uuid);
    match sub
    case Rejected(_, _) => (sub, d)
    case Accepted(id, analysis) => (sub, ThreadRun(d, faults, projectsDir, id, analysis, createdAt).disk)
  }

  /** The description the request carries, when it is a string. */
  predicate HasDescription(payload: Payload) {
    payload.Object? && "description" in payload.fields && payload.fields["description"].Str?
  }

  /** A request is accepted exactly when it carries a string description whose
      stripped form has at least five characters; the id is the first eight
      characters of the uuid and the analysis is that of the stripped text. */
  lemma SubmitAcceptsIff(payload: Payload, uuid: string)
    ensures SubmitBuild(payload, uuid).Accepted?
      <==> HasDescription(payload) && |Strip(payload.fields["description"].text)| >= MinDescriptionLength
    ensures SubmitBuild(payload, uuid).Accepted? ==>
      var description := Strip(payload.fields["description"].text);
      && SubmitBuild(payload, uuid) == Accepted(Take(uuid, 8), AnalysisOf(description))
      && |SubmitBuild(payload, uuid).id| <= 8
  {
  }

  /** A string description shorter than five characters once stripped is refused
      with 400, and a request without one is refused as missing. */
  lemma SubmitRejects(payload: Payload, uuid: string)
    ensures HasDescription(payload) && |Strip(payload.fields["description"].text)| < MinDescriptionLength
      ==> SubmitBuild(payload, uuid) == Rejected(400, "Description too short")
    ensures (payload.Null? || (payload.Object? && "description" !in payload.fields))
      ==> SubmitBuild(payload, uuid) == Rejected(400, "Missing description")
  {
  }

  /** A body that is not an object is never accepted. It fails with 500 exactly
      when reading it raised, when it is a true number or boolean, or when it is a
      list or a string in which "description" is found; otherwise it is missing
      the description. */
  lemma NonObjectRejected(payload: Payload, uuid: string)
    requires !payload.Object?
    ensures var r := SubmitBuild(payload, uuid);
      && r.Rejected?
      && (r.code == 500 <==>
            || payload.Unreadable?
            || (payload.Scalar? && payload.truthy)
            || (payload.Array? && Str("description") in payload.items)
            || (payload.JString? && Contains(payload.s, "description")))
      && (r.code != 500 ==> r == Rejected(400, "Missing description"))
      && (payload.Unreadable? ==> r.message == payload.message)
  {
    if payload.JString? && payload.s == "" {
      assert !Contains(payload.s, "description");
    }
  }

  lemma StripPadded()
    ensures Strip("  abc \n") == "abc"
  {
    assert "  abc \n" == "  " + "abc \n";
    TrimStartAfterSpace("  ", "abc \n");
    assert "abc \n" == "abc" + " \n";
    TrimEndBeforeSpace("abc", " \n");
  }

  /** Surrounding blanks do not count towards the five characters. */
  lemma PaddedShortIsRejected(uuid: string)
    ensures SubmitBuild(Object(map["description" := Str("  abc \n")]), uuid) == Rejected(400, "Description too short")
  {
    StripPadded();
    SubmitRejects(Object(map["description" := Str("  abc \n")]), uuid);
  }

  /** A refused request writes nothing: no id, no thread, no record. */
  lemma RejectedWritesNothing(d: Disk, faults: Faults, projectsDir: Path, payload: Payload, uuid: string, createdAt: string)
    requires !HasDescription(payload) || |Strip(payload.fields["description"].text)| < MinDescriptionLength
    ensures HandleBuild(d, faults, projectsDir, payload, uuid, createdAt) == (SubmitBuild(payload, uuid), d)
    ensures SubmitBuild(payload, uuid).Rejected?
  {
    SubmitAcceptsIff(payload, uuid);
  }

  // ---------------------------------------------------------------------------
  // get_project_status

  /** What `get_project_status` answers. */
  datatype StatusReply = ProjectNotFound | StatusFailed(message: string) | Status(record: Record, apkReady: bool)

  /** `apk_path` is set, non-empty, and names an existing file. */
  predicate ApkReady(files: map<Path, Content>, r: Record) {
    r.apkPath.Some? && r.apkPath.value != "" && r.apkPath.value in files
  }

  /** `get_project_status`: 404 without metadata, 500 when it is not JSON, and
      otherwise the record with `apk_ready` telling whether its APK exists. */
  function ProjectStatus(files: map<Path, Content>, projectsDir: Path, id: string): (r: StatusReply)
    ensures r.ProjectNotFound? <==> MetadataPath(ProjectDir(projectsDir, id)) !in files
    ensures MetadataPath(ProjectDir(projectsDir, id)) in files
      ==> (r.Status? <==> files[MetadataPath(ProjectDir(projectsDir, id))].Json?)
    ensures r.StatusFailed? ==> r.message == JsonDecodeError
    ensures r.Status? ==>
      && files[MetadataPath(ProjectDir(projectsDir, id))] == Json(r.record)
      && (r.apkReady <==> r.record.apkPath.Some? && r.record.apkPath.value != "" && r.record.apkPath.value in files)
  {
    var meta := MetadataPath(ProjectDir(projectsDir, id));
    if meta !in files then ProjectNotFound
    else match files[meta]
      case Text(_) => StatusFailed(JsonDecodeError)
      case Json(r) => Status(r, ApkReady(files, r))
  }

  // ---------------------------------------------------------------------------
  // download_apk

  /** What `download_apk` answers: a file to send under the download name, the 404,
      or an exception the handler does not catch. */
  datatype DownloadReply = Send(path: Path, name: string) | ApkNotFound | Raised(message: string)

  function DownloadName(id: string): string {
    "rahl_" + id + ".apk"
  }

  /** `download_apk`: the conventional APK path first, then the one the record
      names; a metadata file that is not JSON raises outside any `try`. */
  function DownloadApk(files: map<Path, Content>, projectsDir: Path, id: string): (r: DownloadReply)
    ensures r.Send? ==> r.path in files && r.name == DownloadName(id)
    ensures ApkPath(ProjectDir(projectsDir, id)) in files ==> r == Send(ApkPath(ProjectDir(projectsDir, id)), DownloadName(id))
    ensures r.Raised? ==> MetadataPath(ProjectDir(projectsDir, id)) in files && files[MetadataPath(ProjectDir(projectsDir, id))].Text?
  {
    var project := ProjectDir(projectsDir, id);
    var meta := MetadataPath(project);
    if ApkPath(project) in files then Send(ApkPath(project), DownloadName(id))
    else if meta !in files then ApkNotFound
    else match files[meta]
      case Text(_) => Raised(JsonDecodeError)
      case Json(r) => if ApkReady(files, r) then Send(r.apkPath.value, DownloadName(id)) else ApkNotFound
  }

  /** The candidates `download_apk` tries, in order: the conventional path, then the
      path the record names. */
  function Candidates(project: Path, r: Record): seq<Path> {
    [ApkPath(project)] + (if r.apkPath.Some? && r.apkPath.value != "" then [r.apkPath.value] else [])
  }

  /** The first candidate that exists. */
  function FirstExisting(files: map<Path, Content>, cands: seq<Path>): Option<Path>
    decreases |cands|
  {
    if cands == [] then None
    else if cands[0] in files then Some(cands[0])
    else FirstExisting(files, cands[1..])
  }

  lemma {:induction false} FirstExistingIsFirst(files: map<Path, Content>, cands: seq<Path>)
    ensures var r := FirstExisting(files, cands);
      && (r.None? <==> forall i :: 0 <= i < |cands| ==> cands[i] !in files)
      && (r.Some? ==> exists k :: 0 <= k < |cands| && cands[k] == r.value && r.value in files
                                 && forall i :: 0 <= i < k ==> cands[i] !in files)
    decreases |cands|
  {
    if cands != [] && cands[0] !in files {
      FirstExistingIsFirst(files, cands[1..]);
      var r := FirstExisting(files, cands);
      if r.Some? {
        var k :| 0 <= k < |cands[1..]| && cands[1..][k] == r.value && r.value in files
                 && forall i :: 0 <= i < k ==> cands[1..][i] !in files;
        assert cands[k + 1] == r.value;
        assert forall i :: 0 <= i < k + 1 ==> cands[i] !in files by {
          forall i | 0 <= i < k + 1 ensures cands[i] !in files {
            if i > 0 {
              assert cands[i] == cands[1..][i - 1];
            }
          }
        }
      } else {
        forall i | 0 <= i < |cands| ensures cands[i] !in files {
          if i > 0 {
            assert cands[i] == cands[1..][i - 1];
          }
        }
      }
    }
  }

  /** With readable metadata, the download sends the first existing candidate and
      answers 404 exactly when none exists; without metadata only the
      conventional path is tried. */
  lemma DownloadResolves(files: map<Path, Content>, projectsDir: Path, id: string)
    ensures var project := ProjectDir(projectsDir, id);
      var meta := MetadataPath(project);
      var reply := DownloadApk(files, projectsDir, id);
      && (meta in files && files[meta].Json? ==>
            match FirstExisting(files, Candidates(project, files[meta].record))
            case Some(p) => reply == Send(p, DownloadName(id))
            case None => reply == ApkNotFound)
      && (meta !in files ==> reply == (if ApkPath(project) in files then Send(ApkPath(project), DownloadName(id)) else ApkNotFound))
      && (reply.Send? ==> reply.path in files)
  {
    var project := ProjectDir(projectsDir, id);
    var meta := MetadataPath(project);
    if meta in files && files[meta].Json? {
      var r := files[meta].record;
      var cands := Candidates(project, r);
      if ApkPath(project) !in files {
        assert FirstExisting(files, cands) == FirstExisting(files, cands[1..]);
        if ApkReady(files, r) {
          assert cands[1..] == [r.apkPath.value];
        } else if r.apkPath.Some? && r.apkPath.value != "" {
          assert cands[1..] == [r.apkPath.value];
          assert FirstExisting(files, cands[1..]) == None;
        } else {
          assert cands[1..] == [];
        }
      }
    }
  }

  // ---------------------------------------------------------------------------
  // What the handlers see after the thread

  /** After a fault-free thread, the status reports `completed` with `apk_ready`,
      and the download sends the dummy APK. */
  lemma BuiltProjectIsReady(d: Disk, faults: Faults, projectsDir: Path, id: string, a: Analysis, createdAt: string)
    requires NoFaults(faults, d.attempts,
                      d.attempts + |CreateOps(ProjectDir(projectsDir, id), Initial(id, a.appType, a.packageName, a.features, "", createdAt))| + 1)
    ensures var project := ProjectDir(projectsDir, id);
      var r0 := Initial(id, a.appType, a.packageName, a.features, "", createdAt);
      var files := ThreadRun(d, faults, projectsDir, id, a, createdAt).disk.files;
      && ProjectStatus(files, projectsDir, id) == Status(Completion(project, MarkGenerated(r0)), true)
      && DownloadApk(files, projectsDir, id) == Send(ApkPath(project), DownloadName(id))
      && files[ApkPath(project)] == Text(DummyApk)
  {
    ThreadSucceeds(d, faults, projectsDir, id, a, createdAt);
  }

  /** Between `create_project` and the `completed` record, the status says
      `generated` with `apk_ready` false, yet the download already sends the dummy
      APK written by scaffolding. */
  lemma GeneratedDownloadsBeforeReady(d: Disk, faults: Faults, projectsDir: Path, id: string, a: Analysis, createdAt: string)
    requires NoFaults(faults, d.attempts,
                      d.attempts + |CreateOps(ProjectDir(projectsDir, id), Initial(id, a.appType, a.packageName, a.features, "", createdAt))|)
    ensures var project := ProjectDir(projectsDir, id);
      var r0 := Initial(id, a.appType, a.packageName, a.features, "", createdAt);
      var files := Run(d, faults, CreateOps(project, r0)).disk.files;
      && ProjectStatus(files, projectsDir, id) == Status(MarkGenerated(r0), false)
      && MarkGenerated(r0).status == Generated
      && DownloadApk(files, projectsDir, id) == Send(ApkPath(project), DownloadName(id))
  {
    var project := ProjectDir(projectsDir, id);
    var r0 := Initial(id, a.appType, a.packageName, a.features, "", createdAt);
    CreateSucceeds(d, faults, project, r0);
    MetadataPathIsOwn(project, a.packageName);
    ScaffoldApk(project, a.appType, a.packageName);
  }
}
