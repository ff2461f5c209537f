/** The project record kept in `metadata.json` by backend/app.py, and the moves
    its status makes: `building`/0, then `generated`/50, then `completed`/100
    with the path of the APK, or `error` with the exception's text. */
module Records {
  import opened Wrappers
  import opened Classifier

  datatype Status = Building | Generated | Completed | Error

  /** The value stored under `status`. */
  function StatusName(s: Status): string {
    match s
    case Building => "building"
    case Generated => "generated"
    case Completed => "completed"
    case Error => "error"
  }

  /** The metadata dictionary. `apk_path` and `error` are keys that are only present
      once the build finished or failed; here they are `None` until then. */
  datatype Record = Record(
    id: string,
    appType: AppType,
    packageName: string,
    features: seq<Feature>,
    description: string,
    createdAt: string,
    status: Status,
    progress: nat,
    apkPath: Option<string>,
    error: Option<string>)

  /** The record `create_project` writes first. */
  function Initial(id: string, appType: AppType, packageName: string, features: seq<Feature>,
                   description: string, createdAt: string): Record
  {
    Record(id, appType, packageName, features, description, createdAt, Building, 0, None, None)
  }

  /** The record after the Android project is generated. */
  function MarkGenerated(r: Record): Record {
    r.(status := Generated, progress := 50)
  }

  /** The record `build_project_thread` writes once the project exists. */
  function MarkCompleted(r: Record, apkPath: string): Record {
    r.(status := Completed, progress := 100, apkPath := Some(apkPath))
  }

  /** The record the exception handler writes: progress is left as it was. */
  function MarkError(r: Record, message: string): Record {
    r.(status := Error, error := Some(message))
  }

  /** The fields no step of the lifecycle touches. */
  predicate SameProject(a: Record, b: Record) {
    && a.id == b.id && a.appType == b.appType && a.packageName == b.packageName
    && a.features == b.features && a.description == b.description && a.createdAt == b.createdAt
  }

  /** One legal move of the lifecycle: forward to `generated`/50 or to
      `completed`/100 with an APK path, or to `error` with a message and the
      progress unchanged. */
  predicate Advances(a: Record, b: Record) {
    && SameProject(a, b)
    && (|| (a.status == Building && b.status == Generated && b.progress == 50
            && b.apkPath == a.apkPath && b.error == a.error)
        || (a.status == Generated && b.status == Completed && b.progress == 100
            && b.apkPath.Some? && b.error == a.error)
        || (b.status == Error && b.progress == a.progress && b.error.Some? && b.apkPath == a.apkPath))
  }

  /** A move that is not to `error` never lowers the progress and never goes back. */
  function Stage(s: Status): nat {
    match s
    case Building => 0
    case Generated => 1
    case Completed => 2
    case Error => 3
  }

  /** What each status implies about the other fields. */
  predicate Consistent(r: Record) {
    match r.status
    case Building => r.progress == 0
    case Generated => r.progress == 50
    case Completed => r.progress == 100 && r.apkPath.Some?
    case Error => r.error.Some? && r.progress in {0, 50, 100}
  }

  /** Legal moves keep records consistent, never lower the progress, and every
      move other than to `error` goes one stage forward. */
  lemma AdvancesForward(a: Record, b: Record)
    requires Consistent(a) && Advances(a, b)
    ensures Consistent(b)
    ensures b.progress >= a.progress
    ensures b.status != Error ==> Stage(b.status) == Stage(a.status) + 1
  {
  }

  /** The successful run writes a chain of legal moves, and the error record the
      handler writes from either stored record is a legal move too. */
  lemma Lifecycle(id: string, appType: AppType, packageName: string, features: seq<Feature>,
                  description: string, createdAt: string, apkPath: string, message: string)
    ensures var r0 := Initial(id, appType, packageName, features, description, createdAt);
      var r1 := MarkGenerated(r0);
      var r2 := MarkCompleted(r1, apkPath);
      && Consistent(r0)
      && Advances(r0, r1) && Advances(r1, r2)
      && Advances(r0, MarkError(r0, message)) && Advances(r1, MarkError(r1, message))
      && r2.apkPath == Some(apkPath) && MarkError(r1, message).progress == 50
  {
  }
}
