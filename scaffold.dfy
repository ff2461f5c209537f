/** The Android project tree that backend/app.py generates for an application
    type and a package name: where each file goes, which body it gets, and the
    order in which the `generate_*` helpers make directories and write files. */
module Scaffold {
  import opened Wrappers
  import opened Text
  import opened Paths
  import opened Classifier
  import opened Templates
  import opened Store

  // ---------------------------------------------------------------------------
  // Paths, as the helpers join them

  function SrcDir(project: Path): Path {
    JoinAll(project, ["app", "src", "main"])
  }

  /** The directory `generate_android_project` creates from the package's
      dot-separated parts, each joined on as its own component. */
  function SplitPackageDir(project: Path, packageName: string): Path {
    JoinAll(SrcDir(project), ["java"] + SplitOn(packageName, "."))
  }

  function ResDir(project: Path, name: string): Path {
    JoinAll(SrcDir(project), ["res", name])
  }

  function ManifestPath(project: Path): Path {
    JoinAll(project, ["app", "src", "main", "AndroidManifest.xml"])
  }

  /** `package_name.replace('.', '/')`. */
  function PackagePath(packageName: string): Path {
    ReplaceAll(packageName, ".", "/")
  }

  function JavaDir(project: Path, packageName: string): Path {
    JoinAll(project, ["app", "src", "main", "java", PackagePath(packageName)])
  }

  function ActivityPath(project: Path, packageName: string): Path {
    Join(JavaDir(project, packageName), "MainActivity.java")
  }

  function LayoutDir(project: Path): Path {
    JoinAll(project, ["app", "src", "main", "res", "layout"])
  }

  function ValuesDir(project: Path): Path {
    JoinAll(project, ["app", "src", "main", "res", "values"])
  }

  function StylesPath(project: Path): Path {
    Join(ValuesDir(project), "styles.xml")
  }

  function LayoutPath(project: Path): Path {
    Join(LayoutDir(project), "activity_main.xml")
  }

  function AppGradlePath(project: Path): Path {
    JoinAll(project, ["app", "build.gradle"])
  }

  function ProjectGradlePath(project: Path): Path {
    Join(project, "build.gradle")
  }

  function SettingsPath(project: Path): Path {
    Join(project, "settings.gradle")
  }

  function PropertiesPath(project: Path): Path {
    Join(project, "gradle.properties")
  }

  function StringsPath(project: Path): Path {
    Join(ValuesDir(project), "strings.xml")
  }

  function ApkDir(project: Path): Path {
    JoinAll(project, ["app", "build", "outputs", "apk", "debug"])
  }

  /** The conventional debug APK; `build_project_thread` and `download_apk` join
      the same seven components. */
  function ApkPath(project: Path): Path {
    JoinAll(project, ["app", "build", "outputs", "apk", "debug", "app-debug.apk"])
  }

  function MetadataPath(project: Path): Path {
    Join(project, "metadata.json")
  }

  // ---------------------------------------------------------------------------
  // What each helper does, call by call

  /** The four `makedirs` at the top of `generate_android_project`. */
  function AndroidDirsOps(project: Path, packageName: string): seq<Op> {
    [ MakeDirs(SplitPackageDir(project, packageName)), MakeDirs(ResDir(project, "layout")),
      MakeDirs(ResDir(project, "values")), MakeDirs(ResDir(project, "drawable")) ]
  }

  /** `generate_manifest`: the directory of the manifest, then the manifest. */
  function ManifestOps(project: Path, packageName: string): seq<Op> {
    [ MakeDirs(SrcDir(project)), Put(ManifestPath(project), Text(ManifestXml(packageName))) ]
  }

  function ActivityOps(project: Path, appType: AppType, packageName: string): seq<Op> {
    [ MakeDirs(JavaDir(project, packageName)),
      Put(ActivityPath(project, packageName), Text(MainActivityJava(ActivityKindOf(appType), packageName))) ]
  }

  /** The calculator's styles: the `values` directory, then `styles.xml`. */
  function StylesOps(project: Path): seq<Op> {
    [ MakeDirs(ValuesDir(project)), Put(StylesPath(project), Text(CalcButtonStyles)) ]
  }

  /** `generate_layouts`: the calculator's styles file is written before its layout. */
  function LayoutOps(project: Path, appType: AppType): seq<Op> {
    [ MakeDirs(LayoutDir(project)) ]
    + (if appType == Calculator then StylesOps(project) else [])
    + [ Put(LayoutPath(project), Text(ActivityMainXml(LayoutKindOf(appType)))) ]
  }

  /** `generate_build_gradle`: the directory of the app `build.gradle`, then the four files. */
  function GradleOps(project: Path, packageName: string): seq<Op> {
    [ MakeDirs(Join(project, "app")),
      Put(AppGradlePath(project), Text(AppGradle(packageName))),
      Put(ProjectGradlePath(project), Text(ProjectBuildGradle)),
      Put(SettingsPath(project), Text(SettingsGradle)),
      Put(PropertiesPath(project), Text(GradleProperties)) ]
  }

  function StringsOps(project: Path, appType: AppType): seq<Op> {
    [ MakeDirs(ValuesDir(project)), Put(StringsPath(project), Text(StringsXml(AppName(appType)))) ]
  }

  function DummyApkOps(project: Path): seq<Op> {
    [ MakeDirs(ApkDir(project)), Put(ApkPath(project), Text(DummyApk)) ]
  }

  /** `generate_android_project`, helper after helper. */
  function ProjectOps(project: Path, appType: AppType, packageName: string): seq<Op> {
    AndroidDirsOps(project, packageName) + (ManifestOps(project, packageName)
    + (ActivityOps(project, appType, packageName) + (LayoutOps(project, appType)
    + (GradleOps(project, packageName) + (StringsOps(project, appType) + DummyApkOps(project))))))
  }

  // ---------------------------------------------------------------------------
  // What a run leaves on disk

  /** Where the ten generated files of a project go. */
  datatype Tree = Tree(manifest: Path, activity: Path, styles: Path, layout: Path, appGradle: Path,
                       projectGradle: Path, settings: Path, properties: Path, strings: Path, apk: Path)

  function TreeOf(project: Path, packageName: string): Tree {
    Tree(ManifestPath(project), ActivityPath(project, packageName), StylesPath(project), LayoutPath(project),
         AppGradlePath(project), ProjectGradlePath(project), SettingsPath(project), PropertiesPath(project),
         StringsPath(project), ApkPath(project))
  }

  /** The calculator's extra file. */
  function StylesFiles(styles: Path, appType: AppType): map<Path, Content> {
    if appType == Calculator then map[styles := Text(CalcButtonStyles)] else map[]
  }

  function GradleFiles(appGradle: Path, projectGradle: Path, settings: Path, properties: Path,
                       packageName: string): map<Path, Content> {
    map[appGradle := Text(AppGradle(packageName))] + (map[projectGradle := Text(ProjectBuildGradle)]
    + (map[settings := Text(SettingsGradle)] + map[properties := Text(GradleProperties)]))
  }

  /** The files written at the places of `tree`, in the order the helpers write them;
      a later write to the same path would win, as the union does. */
  function FilesAt(tree: Tree, appType: AppType, packageName: string): map<Path, Content> {
    map[tree.manifest := Text(ManifestXml(packageName))]
    + (map[tree.activity := Text(MainActivityJava(ActivityKindOf(appType), packageName))]
    + (StylesFiles(tree.styles, appType) + map[tree.layout := Text(ActivityMainXml(LayoutKindOf(appType)))]
    + (GradleFiles(tree.appGradle, tree.projectGradle, tree.settings, tree.properties, packageName)
    + (map[tree.strings := Text(StringsXml(AppName(appType)))]
    + map[tree.apk := Text(DummyApk)]))))
  }

  /** The files `generate_android_project` leaves. They depend on the type and the
      package name only. */
  function ScaffoldFiles(project: Path, appType: AppType, packageName: string): map<Path, Content> {
    FilesAt(TreeOf(project, packageName), appType, packageName)
  }

  lemma WrittenDirThenPut(dir: Path, p: Path, c: Content)
    ensures Written([MakeDirs(dir), Put(p, c)]) == map[p := c]
  {
    var ops := [MakeDirs(dir), Put(p, c)];
    assert ops[1..] == [Put(p, c)] && ops[1..][1..] == [];
    assert Written(ops[1..]) == map[p := c] + map[];
    assert Written(ops) == map[] + Written(ops[1..]);
    assert map[p := c] + map[] == map[p := c];
    assert map[] + map[p := c] == map[p := c];
  }

  /** A directory, some calls, then one file. */
  lemma WrittenFramed(dir: Path, mid: seq<Op>, p: Path, c: Content)
    ensures Written([MakeDirs(dir)] + mid + [Put(p, c)]) == Written(mid) + map[p := c]
  {
    WrittenAppend([MakeDirs(dir)] + mid, [Put(p, c)]);
    WrittenAppend([MakeDirs(dir)], mid);
    assert [Put(p, c)][1..] == [];
    assert [MakeDirs(dir)][1..] == [];
    assert Written([MakeDirs(dir)]) == map[];
    assert Written([Put(p, c)]) == map[p := c] + map[];
    assert map[p := c] + map[] == map[p := c];
    assert map[] + Written(mid) == Written(mid);
  }

  lemma WrittenLayout(project: Path, appType: AppType)
    ensures Written(LayoutOps(project, appType))
      == StylesFiles(StylesPath(project), appType) + map[LayoutPath(project) := Text(ActivityMainXml(LayoutKindOf(appType)))]
  {
    var mid := if appType == Calculator then StylesOps(project) else [];
    if appType == Calculator {
      WrittenDirThenPut(ValuesDir(project), StylesPath(project), Text(CalcButtonStyles));
    }
    assert Written(mid) == StylesFiles(StylesPath(project), appType);
    WrittenFramed(LayoutDir(project), mid, LayoutPath(project), Text(ActivityMainXml(LayoutKindOf(appType))));
  }

  /** A directory, then four files. */
  lemma WrittenDirThenFour(dir: Path, p1: Path, c1: Content, p2: Path, c2: Content,
                           p3: Path, c3: Content, p4: Path, c4: Content)
    ensures Written([MakeDirs(dir), Put(p1, c1), Put(p2, c2), Put(p3, c3), Put(p4, c4)])
      == map[p1 := c1] + (map[p2 := c2] + (map[p3 := c3] + map[p4 := c4]))
  {
    var ops := [MakeDirs(dir), Put(p1, c1), Put(p2, c2), Put(p3, c3), Put(p4, c4)];
    var m4 := map[p4 := c4];
    assert ops[1..][1..][1..][1..][1..] == [];
    assert Written(ops[1..][1..][1..][1..]) == m4 + map[];
    assert m4 + map[] == m4;
    assert Written(ops[1..][1..][1..]) == map[p3 := c3] + m4;
    assert Written(ops[1..][1..]) == map[p2 := c2] + (map[p3 := c3] + m4);
    assert Written(ops[1..]) == map[p1 := c1] + (map[p2 := c2] + (map[p3 := c3] + m4));
    assert Written(ops) == map[] + Written(ops[1..]);
    UnionEmpty(Written(ops[1..]));
  }

  lemma WrittenGradle(project: Path, packageName: string)
    ensures Written(GradleOps(project, packageName))
      == GradleFiles(AppGradlePath(project), ProjectGradlePath(project), SettingsPath(project), PropertiesPath(project), packageName)
  {
    WrittenDirThenFour(Join(project, "app"), AppGradlePath(project), Text(AppGradle(packageName)),
                       ProjectGradlePath(project), Text(ProjectBuildGradle), SettingsPath(project), Text(SettingsGradle),
                       PropertiesPath(project), Text(GradleProperties));
  }

  lemma WrittenPair(a: seq<Op>, b: seq<Op>, ma: map<Path, Content>, mb: map<Path, Content>)
    requires Written(a) == ma && Written(b) == mb
    ensures Written(a + b) == ma + mb
  {
    WrittenAppend(a, b);
  }

  // What each helper writes.

  lemma AndroidDirsWrite(project: Path, packageName: string)
    ensures Written(AndroidDirsOps(project, packageName)) == map[]
  {
    WrittenOnlyDirs(AndroidDirsOps(project, packageName));
  }

  lemma ManifestWrites(project: Path, packageName: string)
    ensures Written(ManifestOps(project, packageName)) == map[ManifestPath(project) := Text(ManifestXml(packageName))]
  {
    WrittenDirThenPut(SrcDir(project), ManifestPath(project), Text(ManifestXml(packageName)));
  }

  lemma ActivityWrites(project: Path, appType: AppType, packageName: string)
    ensures Written(ActivityOps(project, appType, packageName))
      == map[ActivityPath(project, packageName) := Text(MainActivityJava(ActivityKindOf(appType), packageName))]
  {
    WrittenDirThenPut(JavaDir(project, packageName), ActivityPath(project, packageName),
                      Text(MainActivityJava(ActivityKindOf(appType), packageName)));
  }

  lemma StringsWrites(project: Path, appType: AppType)
    ensures Written(StringsOps(project, appType)) == map[StringsPath(project) := Text(StringsXml(AppName(appType)))]
  {
    WrittenDirThenPut(ValuesDir(project), StringsPath(project), Text(StringsXml(AppName(appType))));
  }

  lemma DummyApkWrites(project: Path)
    ensures Written(DummyApkOps(project)) == map[ApkPath(project) := Text(DummyApk)]
  {
    WrittenDirThenPut(ApkDir(project), ApkPath(project), Text(DummyApk));
  }

  /** What the last three helpers write. */
  lemma LaterHelpersWrite(project: Path, appType: AppType, packageName: string)
    ensures Written(GradleOps(project, packageName) + (StringsOps(project, appType) + DummyApkOps(project)))
      == GradleFiles(AppGradlePath(project), ProjectGradlePath(project), SettingsPath(project), PropertiesPath(project), packageName)
         + (map[StringsPath(project) := Text(StringsXml(AppName(appType)))] + map[ApkPath(project) := Text(DummyApk)])
  {
    WrittenGradle(project, packageName);
    StringsWrites(project, appType);
    DummyApkWrites(project);
    var mstrings := map[StringsPath(project) := Text(StringsXml(AppName(appType)))];
    var mapk := map[ApkPath(project) := Text(DummyApk)];
    WrittenPair(StringsOps(project, appType), DummyApkOps(project), mstrings, mapk);
    WrittenPair(GradleOps(project, packageName), StringsOps(project, appType) + DummyApkOps(project),
                GradleFiles(AppGradlePath(project), ProjectGradlePath(project), SettingsPath(project), PropertiesPath(project), packageName),
                mstrings + mapk);
  }

  /** The directories are bookkeeping only: the files a run of the helpers leaves
      are exactly ScaffoldFiles. */
  lemma ScaffoldWrites(project: Path, appType: AppType, packageName: string)
    ensures Written(ProjectOps(project, appType, packageName)) == ScaffoldFiles(project, appType, packageName)
  {
    AndroidDirsWrite(project, packageName);
    ManifestWrites(project, packageName);
    ActivityWrites(project, appType, packageName);
    WrittenLayout(project, appType);
    LaterHelpersWrite(project, appType, packageName);
    var mlater := GradleFiles(AppGradlePath(project), ProjectGradlePath(project), SettingsPath(project), PropertiesPath(project), packageName)
      + (map[StringsPath(project) := Text(StringsXml(AppName(appType)))] + map[ApkPath(project) := Text(DummyApk)]);
    var mlayout := StylesFiles(StylesPath(project), appType) + map[LayoutPath(project) := Text(ActivityMainXml(LayoutKindOf(appType)))];
    var mactivity := map[ActivityPath(project, packageName) := Text(MainActivityJava(ActivityKindOf(appType), packageName))];
    var mmanifest := map[ManifestPath(project) := Text(ManifestXml(packageName))];
    var t4 := GradleOps(project, packageName) + (StringsOps(project, appType) + DummyApkOps(project));
    var t3 := LayoutOps(project, appType) + t4;
    var t2 := ActivityOps(project, appType, packageName) + t3;
    var t1 := ManifestOps(project, packageName) + t2;
    WrittenPair(LayoutOps(project, appType), t4, mlayout, mlater);
    WrittenPair(ActivityOps(project, appType, packageName), t3, mactivity, mlayout + mlater);
    var rest := mmanifest + (mactivity + (mlayout + mlater));
    WrittenPair(ManifestOps(project, packageName), t2, mmanifest, mactivity + (mlayout + mlater));
    WrittenPair(AndroidDirsOps(project, packageName), t1, map[], rest);
    UnionEmpty(rest);
  }

  lemma EndsWithLastPart(project: Path, parts: seq<Path>, last: Path)
    ensures EndsWith(JoinAll(project, parts + [last]), last)
  {
    JoinAllSnoc(project, parts, last);
    JoinEndsWith(JoinAll(project, parts), last);
  }

  /** Each file's path ends with its file name. */
  lemma PathsEndWithNames(project: Path, packageName: string)
    ensures EndsWith(ManifestPath(project), "AndroidManifest.xml")
    ensures EndsWith(ActivityPath(project, packageName), "MainActivity.java")
    ensures EndsWith(StylesPath(project), "styles.xml")
    ensures EndsWith(LayoutPath(project), "activity_main.xml")
    ensures EndsWith(AppGradlePath(project), "build.gradle")
    ensures EndsWith(ProjectGradlePath(project), "build.gradle")
    ensures EndsWith(SettingsPath(project), "settings.gradle")
    ensures EndsWith(PropertiesPath(project), "gradle.properties")
    ensures EndsWith(StringsPath(project), "strings.xml")
    ensures EndsWith(ApkPath(project), "app-debug.apk")
    ensures EndsWith(MetadataPath(project), "metadata.json")
  {
    assert ["app", "src", "main", "AndroidManifest.xml"] == ["app", "src", "main"] + ["AndroidManifest.xml"];
    EndsWithLastPart(project, ["app", "src", "main"], "AndroidManifest.xml");
    JoinEndsWith(JavaDir(project, packageName), "MainActivity.java");
    JoinEndsWith(ValuesDir(project), "styles.xml");
    JoinEndsWith(LayoutDir(project), "activity_main.xml");
    assert ["app", "build.gradle"] == ["app"] + ["build.gradle"];
    EndsWithLastPart(project, ["app"], "build.gradle");
    JoinEndsWith(project, "build.gradle");
    JoinEndsWith(project, "settings.gradle");
    JoinEndsWith(project, "gradle.properties");
    JoinEndsWith(ValuesDir(project), "strings.xml");
    assert ["app", "build", "outputs", "apk", "debug", "app-debug.apk"]
      == ["app", "build", "outputs", "apk", "debug"] + ["app-debug.apk"];
    EndsWithLastPart(project, ["app", "build", "outputs", "apk", "debug"], "app-debug.apk");
    JoinEndsWith(project, "metadata.json");
  }

  /** The app-level `build.gradle` has a longer path than the top-level one. */
  lemma GradleFilesDiffer(project: Path)
    ensures AppGradlePath(project) != ProjectGradlePath(project)
  {
    assert AppGradlePath(project) == Join(Join(project, "app"), "build.gradle");
    assert |AppGradlePath(project)| > |ProjectGradlePath(project)|;
  }

  /** Neither `styles.xml` nor `metadata.json` ends another file name or is ended by one. */
  lemma StylesNameIsOwn()
    ensures !EndsWith("styles.xml", "AndroidManifest.xml") && !EndsWith("AndroidManifest.xml", "styles.xml")
    ensures !EndsWith("styles.xml", "MainActivity.java") && !EndsWith("MainActivity.java", "styles.xml")
    ensures !EndsWith("styles.xml", "activity_main.xml") && !EndsWith("activity_main.xml", "styles.xml")
    ensures !EndsWith("styles.xml", "build.gradle") && !EndsWith("build.gradle", "styles.xml")
    ensures !EndsWith("styles.xml", "settings.gradle") && !EndsWith("settings.gradle", "styles.xml")
    ensures !EndsWith("styles.xml", "gradle.properties") && !EndsWith("gradle.properties", "styles.xml")
    ensures !EndsWith("styles.xml", "strings.xml") && !EndsWith("strings.xml", "styles.xml")
    ensures !EndsWith("styles.xml", "app-debug.apk") && !EndsWith("app-debug.apk", "styles.xml")
  {
  }

  lemma MetadataNameIsOwn()
    ensures !EndsWith("metadata.json", "AndroidManifest.xml") && !EndsWith("AndroidManifest.xml", "metadata.json")
    ensures !EndsWith("metadata.json", "MainActivity.java") && !EndsWith("MainActivity.java", "metadata.json")
    ensures !EndsWith("metadata.json", "activity_main.xml") && !EndsWith("activity_main.xml", "metadata.json")
    ensures !EndsWith("metadata.json", "build.gradle") && !EndsWith("build.gradle", "metadata.json")
    ensures !EndsWith("metadata.json", "settings.gradle") && !EndsWith("settings.gradle", "metadata.json")
    ensures !EndsWith("metadata.json", "gradle.properties") && !EndsWith("gradle.properties", "metadata.json")
    ensures !EndsWith("metadata.json", "strings.xml") && !EndsWith("strings.xml", "metadata.json")
    ensures !EndsWith("metadata.json", "app-debug.apk") && !EndsWith("app-debug.apk", "metadata.json")
    ensures !EndsWith("metadata.json", "styles.xml") && !EndsWith("styles.xml", "metadata.json")
  {
  }

  /** `p` is none of the ten places of `tree`. */
  predicate OutsideTree(tree: Tree, p: Path) {
    && p != tree.manifest && p != tree.activity && p != tree.styles && p != tree.layout
    && p != tree.appGradle && p != tree.projectGradle && p != tree.settings && p != tree.properties
    && p != tree.strings && p != tree.apk
  }

  lemma NotInFilesAt(tree: Tree, p: Path, appType: AppType, packageName: string)
    requires OutsideTree(tree, p)
    ensures p !in FilesAt(tree, appType, packageName)
  {
    KeysAt(tree, appType, packageName);
  }

  /** The calculator's styles file is none of the other files of the project. */
  lemma StylesPathIsOwn(project: Path, packageName: string)
    ensures var tree := TreeOf(project, packageName); OwnStyles(tree)
  {
    PathsEndWithNames(project, packageName);
    StylesNameIsOwn();
    NamesDiffer(StylesPath(project), ManifestPath(project), "styles.xml", "AndroidManifest.xml");
    NamesDiffer(StylesPath(project), ActivityPath(project, packageName), "styles.xml", "MainActivity.java");
    NamesDiffer(StylesPath(project), LayoutPath(project), "styles.xml", "activity_main.xml");
    NamesDiffer(StylesPath(project), AppGradlePath(project), "styles.xml", "build.gradle");
    NamesDiffer(StylesPath(project), ProjectGradlePath(project), "styles.xml", "build.gradle");
    NamesDiffer(StylesPath(project), SettingsPath(project), "styles.xml", "settings.gradle");
    NamesDiffer(StylesPath(project), PropertiesPath(project), "styles.xml", "gradle.properties");
    NamesDiffer(StylesPath(project), StringsPath(project), "styles.xml", "strings.xml");
    NamesDiffer(StylesPath(project), ApkPath(project), "styles.xml", "app-debug.apk");
  }

  /** `metadata.json` is none of the generated files. */
  lemma MetadataPathIsOwn(project: Path, packageName: string)
    ensures OutsideTree(TreeOf(project, packageName), MetadataPath(project))
  {
    PathsEndWithNames(project, packageName);
    MetadataNameIsOwn();
    NamesDiffer(MetadataPath(project), ManifestPath(project), "metadata.json", "AndroidManifest.xml");
    NamesDiffer(MetadataPath(project), ActivityPath(project, packageName), "metadata.json", "MainActivity.java");
    NamesDiffer(MetadataPath(project), LayoutPath(project), "metadata.json", "activity_main.xml");
    NamesDiffer(MetadataPath(project), AppGradlePath(project), "metadata.json", "build.gradle");
    NamesDiffer(MetadataPath(project), ProjectGradlePath(project), "metadata.json", "build.gradle");
    NamesDiffer(MetadataPath(project), SettingsPath(project), "metadata.json", "settings.gradle");
    NamesDiffer(MetadataPath(project), PropertiesPath(project), "metadata.json", "gradle.properties");
    NamesDiffer(MetadataPath(project), StringsPath(project), "metadata.json", "strings.xml");
    NamesDiffer(MetadataPath(project), ApkPath(project), "metadata.json", "app-debug.apk");
    NamesDiffer(MetadataPath(project), StylesPath(project), "metadata.json", "styles.xml");
  }

  /** Scaffolding never writes `metadata.json`. */
  lemma MetadataNotScaffolded(project: Path, appType: AppType, packageName: string)
    ensures MetadataPath(project) !in ScaffoldFiles(project, appType, packageName)
  {
    MetadataPathIsOwn(project, packageName);
    NotInFilesAt(TreeOf(project, packageName), MetadataPath(project), appType, packageName);
  }

  /** The nine files every project gets, whatever its type. */
  function CommonAt(tree: Tree): set<Path> {
    { tree.manifest, tree.activity, tree.layout, tree.appGradle, tree.projectGradle, tree.settings,
      tree.properties, tree.strings, tree.apk }
  }

  function CommonFiles(project: Path, packageName: string): set<Path> {
    CommonAt(TreeOf(project, packageName))
  }

  lemma KeysAt(tree: Tree, appType: AppType, packageName: string)
    ensures forall p :: (p in FilesAt(tree, appType, packageName)
                         <==> p in CommonAt(tree) || (appType == Calculator && p == tree.styles))
  {
  }

  /** Scaffolding always writes the nine common files, and `styles.xml` exactly
      for a calculator. */
  lemma ScaffoldKeys(project: Path, appType: AppType, packageName: string)
    ensures forall p :: (p in ScaffoldFiles(project, appType, packageName)
                         <==> p in CommonFiles(project, packageName) || (appType == Calculator && p == StylesPath(project)))
  {
    KeysAt(TreeOf(project, packageName), appType, packageName);
  }

  /** The styles file is none of the nine common files. */
  predicate OwnStyles(tree: Tree) {
    && tree.styles != tree.manifest && tree.styles != tree.activity && tree.styles != tree.layout
    && tree.styles != tree.appGradle && tree.styles != tree.projectGradle && tree.styles != tree.settings
    && tree.styles != tree.properties && tree.styles != tree.strings && tree.styles != tree.apk
  }

  lemma StylesAt(tree: Tree, appType: AppType, packageName: string)
    requires OwnStyles(tree)
    ensures tree.styles in FilesAt(tree, appType, packageName) <==> appType == Calculator
    ensures appType == Calculator ==> FilesAt(tree, appType, packageName)[tree.styles] == Text(CalcButtonStyles)
  {
    var rest := GradleFiles(tree.appGradle, tree.projectGradle, tree.settings, tree.properties, packageName)
      + (map[tree.strings := Text(StringsXml(AppName(appType)))] + map[tree.apk := Text(DummyApk)]);
    assert tree.styles !in rest;
    UnionLookup(map[tree.manifest := Text(ManifestXml(packageName))],
                map[tree.activity := Text(MainActivityJava(ActivityKindOf(appType), packageName))],
                StylesFiles(tree.styles, appType), map[tree.layout := Text(ActivityMainXml(LayoutKindOf(appType)))],
                rest, tree.styles);
  }

  /** A key that only the third of five maps holds is looked up there. */
  lemma UnionLookup(m1: map<Path, Content>, m2: map<Path, Content>, m3: map<Path, Content>,
                    m4: map<Path, Content>, m5: map<Path, Content>, p: Path)
    requires p !in m1 && p !in m2 && p !in m4 && p !in m5
    ensures p in m1 + (m2 + (m3 + m4 + m5)) <==> p in m3
    ensures p in m3 ==> (m1 + (m2 + (m3 + m4 + m5)))[p] == m3[p]
  {
  }

  /** `styles.xml` is written only for a calculator, and then holds the button styles. */
  lemma StylesOnlyForCalculator(project: Path, appType: AppType, packageName: string)
    ensures StylesPath(project) in ScaffoldFiles(project, appType, packageName) <==> appType == Calculator
    ensures appType == Calculator ==> ScaffoldFiles(project, appType, packageName)[StylesPath(project)] == Text(CalcButtonStyles)
  {
    StylesPathIsOwn(project, packageName);
    StylesAt(TreeOf(project, packageName), appType, packageName);
  }

  /** The last file written is the stand-in APK. */
  lemma ScaffoldApk(project: Path, appType: AppType, packageName: string)
    ensures ScaffoldFiles(project, appType, packageName)[ApkPath(project)] == Text(DummyApk)
  {
  }

  /** With no fault, `generate_android_project` leaves every other file as it was
      and adds ScaffoldFiles; a second run changes no file. */
  lemma ScaffoldRerun(d: Disk, faults: Faults, project: Path, appType: AppType, packageName: string)
    requires NoFaults(faults, d.attempts, d.attempts + 2 * |ProjectOps(project, appType, packageName)|)
    ensures var ops := ProjectOps(project, appType, packageName);
      var first := Run(d, faults, ops);
      var second := Run(first.disk, faults, ops);
      && first.error.None? && second.error.None?
      && first.disk.files == d.files + ScaffoldFiles(project, appType, packageName)
      && second.disk.files == first.disk.files
  {
    var ops := ProjectOps(project, appType, packageName);
    var n := |ops|;
    RunFaultFree(d, faults, ops);
    var first := Run(d, faults, ops);
    assert NoFaults(faults, first.disk.attempts, first.disk.attempts + n) by {
      assert first.disk.attempts == d.attempts + n;
    }
    RunFaultFree(first.disk, faults, ops);
    ScaffoldWrites(project, appType, packageName);
    RerunSameFiles(d.files, ops);
  }

  /** `package_name.replace('.', '/')` is relative unless the name starts with `.` or `/`. */
  lemma PackagePathRelative(packageName: string)
    requires !StartsWith(packageName, ".") && !StartsWith(packageName, "/")
    ensures !IsAbsolute(PackagePath(packageName))
  {
    ReplaceCharIsMap(packageName, '.', '/');
    if packageName != [] {
      assert packageName[..1] == [packageName[0]];
    }
  }

  /** Every place of `tree` lies below `root`. */
  predicate AllUnder(tree: Tree, root: Path) {
    && Under(tree.manifest, root) && Under(tree.activity, root) && Under(tree.styles, root)
    && Under(tree.layout, root) && Under(tree.appGradle, root) && Under(tree.projectGradle, root)
    && Under(tree.settings, root) && Under(tree.properties, root) && Under(tree.strings, root)
    && Under(tree.apk, root)
  }

  lemma UnderAt(tree: Tree, root: Path, appType: AppType, packageName: string)
    requires AllUnder(tree, root)
    ensures forall p :: p in FilesAt(tree, appType, packageName) ==> Under(p, root)
  {
    KeysAt(tree, appType, packageName);
  }

  lemma JavaPartsRelative(packagePath: Path)
    requires !IsAbsolute(packagePath)
    ensures AllRelative(["app", "src", "main", "java", packagePath])
  {
    var ps := ["app", "src", "main", "java", packagePath];
    assert ps[1..][1..][1..][1..] == [packagePath];
    assert AllRelative(["java", packagePath]);
  }

  /** The source files of the tree lie inside the project. */
  lemma SourcesUnderProject(project: Path, packageName: string)
    requires project != "" && !EndsWith(project, "/") && !IsAbsolute(PackagePath(packageName))
    ensures var tree := TreeOf(project, packageName);
      && Under(tree.manifest, project) && Under(tree.activity, project) && Under(tree.styles, project)
      && Under(tree.layout, project) && Under(tree.strings, project)
  {
    JoinAllIsUnder(project, ["app", "src", "main", "AndroidManifest.xml"]);
    JavaPartsRelative(PackagePath(packageName));
    JoinAllIsUnder(project, ["app", "src", "main", "java", PackagePath(packageName)]);
    UnderJoin(project, JavaDir(project, packageName), "MainActivity.java");
    JoinAllIsUnder(project, ["app", "src", "main", "res", "layout"]);
    UnderJoin(project, LayoutDir(project), "activity_main.xml");
    JoinAllIsUnder(project, ["app", "src", "main", "res", "values"]);
    UnderJoin(project, ValuesDir(project), "styles.xml");
    UnderJoin(project, ValuesDir(project), "strings.xml");
  }

  /** The build files and the APK lie inside the project. */
  lemma BuildFilesUnderProject(project: Path, packageName: string)
    requires project != "" && !EndsWith(project, "/")
    ensures var tree := TreeOf(project, packageName);
      && Under(tree.appGradle, project) && Under(tree.projectGradle, project)
      && Under(tree.settings, project) && Under(tree.properties, project) && Under(tree.apk, project)
  {
    JoinAllIsUnder(project, ["app", "build.gradle"]);
    JoinIsUnder(project, "build.gradle");
    JoinIsUnder(project, "settings.gradle");
    JoinIsUnder(project, "gradle.properties");
    JoinAllIsUnder(project, ["app", "build", "outputs", "apk", "debug", "app-debug.apk"]);
  }

  /** Below a project directory with no trailing slash, and for a package name that
      does not start with `.` or `/`, every generated file lies inside the project. */
  lemma ScaffoldUnderProject(project: Path, appType: AppType, packageName: string)
    requires project != "" && !EndsWith(project, "/")
    requires !StartsWith(packageName, ".") && !StartsWith(packageName, "/")
    ensures forall p :: p in ScaffoldFiles(project, appType, packageName) ==> Under(p, project)
  {
    PackagePathRelative(packageName);
    SourcesUnderProject(project, packageName);
    BuildFilesUnderProject(project, packageName);
    UnderAt(TreeOf(project, packageName), project, appType, packageName);
  }

  /** The files of an analysed description stay inside the project: its package
      name starts with `com.rahl.`. */
  lemma AnalysedScaffoldUnderProject(project: Path, appType: AppType, description: string)
    requires project != "" && !EndsWith(project, "/")
    ensures forall p :: p in ScaffoldFiles(project, appType, PackageName(Lower(description))) ==> Under(p, project)
  {
    var pkg := PackageName(Lower(description));
    PackageNameShape(description);
    assert pkg[..1] == PackagePrefix[..1] == "c";
    ScaffoldUnderProject(project, appType, pkg);
  }

  lemma SplitExample()
    ensures SplitOn("com.rahl./tmp", ".") == ["com", "rahl", "/tmp"]
  {
    assert "com.rahl./tmp" == "com" + ['.'] + ("rahl" + ['.'] + "/tmp");
    SplitOnAbsent("/tmp", '.');
    SplitOnFirst("rahl", '.', "/tmp");
    SplitOnFirst("com", '.', "rahl" + ['.'] + "/tmp");
  }

  /** The package directory made at the top of `generate_android_project` joins the
      dot-separated parts one by one, so a part that starts with `/` (a word such as
      `/tmp` in the description) restarts the path outside the project; the Java
      file itself, joined from `replace('.', '/')`, stays inside. */
  lemma PackageDirCanLeaveProject(project: Path)
    ensures SplitPackageDir(project, "com.rahl./tmp") == "/tmp"
  {
    SplitExample();
    var parts := ["java"] + SplitOn("com.rahl./tmp", ".");
    assert parts == ["java", "com", "rahl", "/tmp"];
    JoinAllRestarts(SrcDir(project), parts, 3);
    assert parts[4..] == [];
  }

  // ---------------------------------------------------------------------------
  // The helpers as methods on the file system

  /** `generate_manifest`. */
  method GenerateManifest(fs: FileSystem, project: Path, packageName: string) returns (err: Option<string>)
    modifies fs
    ensures Outcome(fs.State(), err) == Run(old(fs.State()), fs.faults, ManifestOps(project, packageName))
  {
    RunTwo(fs.State(), fs.faults, MakeDirs(SrcDir(project)), Put(ManifestPath(project), Text(ManifestXml(packageName))));
    err := fs.MakeDirs(SrcDir(project));
    if err.Some? {
      return;
    }
    err := fs.Write(ManifestPath(project), Text(ManifestXml(packageName)));
  }

  /** `generate_main_activity`: the body is chosen by the type; the features are
      passed in but not used. */
  method GenerateMainActivity(fs: FileSystem, project: Path, packageName: string, appType: AppType,
                              features: seq<Feature>) returns (err: Option<string>)
    modifies fs
    ensures Outcome(fs.State(), err) == Run(old(fs.State()), fs.faults, ActivityOps(project, appType, packageName))
  {
    RunTwo(fs.State(), fs.faults, MakeDirs(JavaDir(project, packageName)),
           Put(ActivityPath(project, packageName), Text(MainActivityJava(ActivityKindOf(appType), packageName))));
    err := fs.MakeDirs(JavaDir(project, packageName));
    if err.Some? {
      return;
    }
    var kind: ActivityKind;
    if appType == Calculator {
      kind := CalculatorActivity;
    } else if appType == Webview {
      kind := WebviewActivity;
    } else if appType == Todo {
      kind := TodoActivity;
    } else {
      kind := SimpleActivity(TypeName(appType));
    }
    err := fs.Write(ActivityPath(project, packageName), Text(MainActivityJava(kind, packageName)));
  }

  /** The styles block of `generate_layouts`, taken only for a calculator. */
  method WriteCalculatorStyles(fs: FileSystem, project: Path) returns (err: Option<string>)
    modifies fs
    ensures Outcome(fs.State(), err) == Run(old(fs.State()), fs.faults, StylesOps(project))
  {
    RunTwo(fs.State(), fs.faults, MakeDirs(ValuesDir(project)), Put(StylesPath(project), Text(CalcButtonStyles)));
    err := fs.MakeDirs(ValuesDir(project));
    if err.Some? {
      return;
    }
    err := fs.Write(StylesPath(project), Text(CalcButtonStyles));
  }

  /** `generate_layouts`: for a calculator the styles file comes first. */
  method GenerateLayouts(fs: FileSystem, project: Path, appType: AppType) returns (err: Option<string>)
    modifies fs
    ensures Outcome(fs.State(), err) == Run(old(fs.State()), fs.faults, LayoutOps(project, appType))
  {
    ghost var d0 := fs.State();
    ghost var head := [MakeDirs(LayoutDir(project))];
    ghost var styles := if appType == Calculator then StylesOps(project) else [];
    ghost var last := [Put(LayoutPath(project), Text(ActivityMainXml(LayoutKindOf(appType))))];
    assert LayoutOps(project, appType) == head + styles + last;
    err := fs.MakeDirs(LayoutDir(project));
    assert Outcome(fs.State(), err) == Run(d0, fs.faults, head);
    RunAppend(d0, fs.faults, head, styles);
    RunAppend(d0, fs.faults, head + styles, last);
    if err.Some? {
      return;
    }
    var layout: LayoutKind;
    if appType == Calculator {
      layout := CalculatorLayout;
      err := WriteCalculatorStyles(fs, project);
      if err.Some? {
        return;
      }
    } else if appType == Webview {
      layout := WebviewLayout;
    } else if appType == Todo {
      layout := TodoLayout;
    } else {
      layout := SimpleLayout;
    }
    assert layout == LayoutKindOf(appType);
    err := fs.Write(LayoutPath(project), Text(ActivityMainXml(layout)));
  }

  /** `generate_build_gradle`: the app's `build.gradle`, then the project's three files. */
  method GenerateBuildGradle(fs: FileSystem, project: Path, packageName: string) returns (err: Option<string>)
    modifies fs
    ensures Outcome(fs.State(), err) == Run(old(fs.State()), fs.faults, GradleOps(project, packageName))
  {
    ghost var dir := MakeDirs(Join(project, "app"));
    ghost var app := Put(AppGradlePath(project), Text(AppGradle(packageName)));
    ghost var top := Put(ProjectGradlePath(project), Text(ProjectBuildGradle));
    ghost var settings := Put(SettingsPath(project), Text(SettingsGradle));
    ghost var properties := Put(PropertiesPath(project), Text(GradleProperties));
    assert GradleOps(project, packageName) == [dir] + [app, top, settings, properties];
    RunCons(fs.State(), fs.faults, dir, [app, top, settings, properties]);
    err := fs.MakeDirs(Join(project, "app"));
    if err.Some? {
      return;
    }
    assert [app, top, settings, properties] == [app] + [top, settings, properties];
    RunCons(fs.State(), fs.faults, app, [top, settings, properties]);
    err := fs.Write(AppGradlePath(project), Text(AppGradle(packageName)));
    if err.Some? {
      return;
    }
    assert [top, settings, properties] == [top] + [settings, properties];
    RunCons(fs.State(), fs.faults, top, [settings, properties]);
    err := fs.Write(ProjectGradlePath(project), Text(ProjectBuildGradle));
    if err.Some? {
      return;
    }
    RunTwo(fs.State(), fs.faults, settings, properties);
    err := fs.Write(SettingsPath(project), Text(SettingsGradle));
    if err.Some? {
      return;
    }
    err := fs.Write(PropertiesPath(project), Text(GradleProperties));
  }

  /** `generate_strings`: the application name comes from `app_names`. */
  method GenerateStrings(fs: FileSystem, project: Path, appType: AppType) returns (err: Option<string>)
    modifies fs
    ensures Outcome(fs.State(), err) == Run(old(fs.State()), fs.faults, StringsOps(project, appType))
  {
    RunTwo(fs.State(), fs.faults, MakeDirs(ValuesDir(project)), Put(StringsPath(project), Text(StringsXml(AppName(appType)))));
    err := fs.MakeDirs(ValuesDir(project));
    if err.Some? {
      return;
    }
    var appName := if appType in AppNames then AppNames[appType] else "Rahl App";
    err := fs.Write(StringsPath(project), Text(StringsXml(appName)));
  }

  /** `create_dummy_apk`: a text file where Gradle would put the debug APK. */
  method CreateDummyApk(fs: FileSystem, project: Path) returns (err: Option<string>)
    modifies fs
    ensures Outcome(fs.State(), err) == Run(old(fs.State()), fs.faults, DummyApkOps(project))
  {
    RunTwo(fs.State(), fs.faults, MakeDirs(ApkDir(project)), Put(ApkPath(project), Text(DummyApk)));
    err := fs.MakeDirs(ApkDir(project));
    if err.Some? {
      return;
    }
    err := fs.Write(ApkPath(project), Text(DummyApk));
  }

  /** The four `makedirs` that open `generate_android_project`. */
  method MakeAndroidDirs(fs: FileSystem, project: Path, packageName: string) returns (err: Option<string>)
    modifies fs
    ensures Outcome(fs.State(), err) == Run(old(fs.State()), fs.faults, AndroidDirsOps(project, packageName))
  {
    ghost var java := MakeDirs(SplitPackageDir(project, packageName));
    ghost var layout := MakeDirs(ResDir(project, "layout"));
    ghost var values := MakeDirs(ResDir(project, "values"));
    ghost var drawable := MakeDirs(ResDir(project, "drawable"));
    assert AndroidDirsOps(project, packageName) == [java] + [layout, values, drawable];
    RunCons(fs.State(), fs.faults, java, [layout, values, drawable]);
    err := fs.MakeDirs(SplitPackageDir(project, packageName));
    if err.Some? {
      return;
    }
    assert [layout, values, drawable] == [layout] + [values, drawable];
    RunCons(fs.State(), fs.faults, layout, [values, drawable]);
    err := fs.MakeDirs(ResDir(project, "layout"));
    if err.Some? {
      return;
    }
    RunTwo(fs.State(), fs.faults, values, drawable);
    err := fs.MakeDirs(ResDir(project, "values"));
    if err.Some? {
      return;
    }
    err := fs.MakeDirs(ResDir(project, "drawable"));
  }

  /** `generate_android_project`: the directories, then the helpers in order; the
      first exception ends it. */
  method GenerateAndroidProject(fs: FileSystem, project: Path, appType: AppType, packageName: string,
                                features: seq<Feature>) returns (err: Option<string>)
    modifies fs
    ensures Outcome(fs.State(), err) == Run(old(fs.State()), fs.faults, ProjectOps(project, appType, packageName))
  {
    // Each stage: the whole run equals the run of what is left from the current state.
    ghost var t6 := DummyApkOps(project);
    ghost var t5 := StringsOps(project, appType) + t6;
    ghost var t4 := GradleOps(project, packageName) + t5;
    ghost var t3 := LayoutOps(project, appType) + t4;
    ghost var t2 := ActivityOps(project, appType, packageName) + t3;
    ghost var t1 := ManifestOps(project, packageName) + t2;

    RunAppend(fs.State(), fs.faults, AndroidDirsOps(project, packageName), t1);
    err := MakeAndroidDirs(fs, project, packageName);
    if err.Some? {
      return;
    }
    RunAppend(fs.State(), fs.faults, ManifestOps(project, packageName), t2);
    err := GenerateManifest(fs, project, packageName);
    if err.Some? {
      return;
    }
    RunAppend(fs.State(), fs.faults, ActivityOps(project, appType, packageName), t3);
    err := GenerateMainActivity(fs, project, packageName, appType, features);
    if err.Some? {
      return;
    }
    RunAppend(fs.State(), fs.faults, LayoutOps(project, appType), t4);
    err := GenerateLayouts(fs, project, appType);
    if err.Some? {
      return;
    }
    RunAppend(fs.State(), fs.faults, GradleOps(project, packageName), t5);
    err := GenerateBuildGradle(fs, project, packageName);
    if err.Some? {
      return;
    }
    RunAppend(fs.State(), fs.faults, StringsOps(project, appType), t6);
    err := GenerateStrings(fs, project, appType);
    if err.Some? {
      return;
    }
    err := CreateDummyApk(fs, project);
  }
}
