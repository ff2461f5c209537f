/** The older single-file builder, app.py: a plain priority chain picks the
    application type, a template registry without a game entry falls back to
    the webview template, and customisation rewrites the placeholder package of
    the manifest in place. */
module Legacy {
  import opened Wrappers
  import opened Text
  import opened Paths
  import Classifier

  // ---------------------------------------------------------------------------
  // detect_app_type

  /** The four answers of the chain. */
  predicate IsLegacyType(t: string) {
    t == "calculator" || t == "notes" || t == "webview" || t == "game"
  }

  /** `RahlBuilder.detect_app_type`: the first test of the chain that holds decides. */
  function DetectAppType(text: string): (r: string)
    ensures IsLegacyType(r)
  {
    var lower := Lower(text);
    if Contains(lower, "calculator") then "calculator"
    else if Contains(lower, "note") || Contains(lower, "todo") then "notes"
    else if Contains(lower, "website") || Contains(lower, "web") then "webview"
    else if Contains(lower, "game") then "game"
    else "webview"
  }

  /** A hit on a word is a hit on each of its prefixes. */
  lemma PrefixHit(s: string, w: string, p: string)
    requires Contains(s, w) && StartsWith(w, p)
    ensures Contains(s, p)
  {
    ContainsOccurs(s, w);
    var i :| OccursAt(s, w, i);
    assert s[i..i + |p|] == s[i..i + |w|][..|p|];
    OccursAtContains(s, p, i);
  }

  /** The chain by priority, each answer given exactly by its own condition. The
      test for "website" adds nothing: any text that contains it contains "web". */
  lemma DetectPriority(text: string)
    ensures var lower := Lower(text);
      var hasCalc := Contains(lower, "calculator");
      var hasNotes := Contains(lower, "note") || Contains(lower, "todo");
      var hasWeb := Contains(lower, "web");
      var hasGame := Contains(lower, "game");
      && (DetectAppType(text) == "calculator" <==> hasCalc)
      && (DetectAppType(text) == "notes" <==> !hasCalc && hasNotes)
      && (DetectAppType(text) == "game" <==> !hasCalc && !hasNotes && !hasWeb && hasGame)
      && (DetectAppType(text) == "webview" <==> !hasCalc && !hasNotes && (hasWeb || !hasGame))
  {
    var lower := Lower(text);
    if Contains(lower, "website") {
      PrefixHit(lower, "website", "web");
    }
  }

  /** Whatever else the text says, "calculator" decides. */
  lemma CalculatorWins(pre: string, post: string)
    ensures DetectAppType(pre + "calculator" + post) == "calculator"
  {
    var text := pre + "calculator" + post;
    LowerConcat(pre + "calculator", post);
    LowerConcat(pre, "calculator");
    assert Lower("calculator") == "calculator";
    assert Contains("calculator", "calculator");
    ContainsInContext(Lower(pre), "calculator", Lower(post), "calculator");
  }

  lemma LowerTodoGame()
    ensures Lower("todo game") == "todo game"
  {
    var t := "todo game";
    assert NoUpper(t) by {
      forall i | 0 <= i < |t| ensures !IsUpper(t[i]) {
      }
    }
    LowerOfLower(t);
  }

  /** The two classifiers disagree on the quirk's example: the chain answers
      `notes` where the keyword table of backend/app.py answers `game`. */
  lemma ChainDiffersFromTable()
    ensures DetectAppType("todo game") == "notes"
    ensures Classifier.TypeName(Classifier.AppTypeOf(Lower("todo game"))) == "game"
  {
    LowerTodoGame();
    ShorterNotContains("todo game", "calculator");
    assert StartsWith("todo game", "todo");
    Classifier.TodoGameIsGame();
  }

  // ---------------------------------------------------------------------------
  // Templates

  datatype TemplateInfo = TemplateInfo(name: string, description: string, templatePath: Path)

  /** `RahlBuilder.load_templates`: three entries, none for `game`. */
  const LegacyTemplates: map<string, TemplateInfo> := map[
    "webview" := TemplateInfo("WebView App", "Creates an Android app that displays a website", "templates/webview"),
    "calculator" := TemplateInfo("Calculator", "Simple calculator application", "templates/calculator"),
    "notes" := TemplateInfo("Notes App", "Note-taking application", "templates/notes")
  ]

  /** `self.templates.get(app_type, self.templates['webview'])`. */
  function SelectTemplate(appType: string): (t: TemplateInfo)
    ensures t in LegacyTemplates.Values
    ensures appType !in LegacyTemplates ==> t == LegacyTemplates["webview"]
  {
    if appType in LegacyTemplates then LegacyTemplates[appType] else LegacyTemplates["webview"]
  }

  /** Every detected type gets the template of its own name, except `game`,
      which has none and gets the webview template. */
  lemma TemplateFallback(text: string)
    ensures var t := DetectAppType(text);
      SelectTemplate(t).templatePath == "templates/" + (if t == "game" then "webview" else t)
    ensures DetectAppType(text) == "game" ==> SelectTemplate("game") == SelectTemplate("webview")
  {
  }

  // ---------------------------------------------------------------------------
  // customize_project

  const Placeholder: string := "com.rahl.template"
  const DefaultPackage: string := "com.rahl.app"

  function ManifestPath(projectDir: Path): Path {
    Join(projectDir, "app/src/main/AndroidManifest.xml")
  }

  /** `intent.get('package_name', 'com.rahl.app')`. */
  function PackageOf(intent: map<string, string>): string {
    if "package_name" in intent then intent["package_name"] else DefaultPackage
  }

  /** The manifest text after `content.replace('com.rahl.template', package)`. */
  function CustomizedManifest(content: string, intent: map<string, string>): string {
    ReplaceAll(content, Placeholder, PackageOf(intent))
  }

  /** The rewrite cuts the manifest at every placeholder and glues the pieces back
      with the package; a manifest without the placeholder, or a package equal to
      it, comes back unchanged. */
  lemma CustomizedManifestShape(content: string, intent: map<string, string>)
    ensures CustomizedManifest(content, intent) == JoinWith(PackageOf(intent), SplitOn(content, Placeholder))
    ensures JoinWith(Placeholder, SplitOn(content, Placeholder)) == content
    ensures !Contains(content, Placeholder) ==> CustomizedManifest(content, intent) == content
    ensures PackageOf(intent) == Placeholder ==> CustomizedManifest(content, intent) == content
    ensures "package_name" !in intent
      ==> CustomizedManifest(content, intent) == ReplaceAll(content, Placeholder, DefaultPackage)
  {
    ReplaceIsJoinOfSplit(content, Placeholder, PackageOf(intent));
    SplitJoinRoundTrip(content, Placeholder);
    if !Contains(content, Placeholder) {
      ReplaceAbsent(content, Placeholder, PackageOf(intent));
    }
    if PackageOf(intent) == Placeholder {
      ReplaceBySelf(content, Placeholder);
    }
  }

  /** The files after customisation, and the error `open` raises when the
      manifest path exists but is a directory. */
  function Customize(files: map<Path, string>, dirs: set<Path>, projectDir: Path, intent: map<string, string>)
    : (map<Path, string>, Option<string>)
  {
    var manifest := ManifestPath(projectDir);
    if manifest in files then (files[manifest := CustomizedManifest(files[manifest], intent)], None)
    else if manifest in dirs then (files, Some("[Errno 21] Is a directory: " + PyRepr(manifest)))
    else (files, None)
  }

  /** Customisation rewrites the manifest alone, and nothing when there is none. */
  lemma CustomizeTouchesOnlyManifest(files: map<Path, string>, dirs: set<Path>, projectDir: Path,
                                     intent: map<string, string>, p: Path)
    ensures var (after, error) := Customize(files, dirs, projectDir, intent);
      && after.Keys == files.Keys
      && (p != ManifestPath(projectDir) && p in files ==> after[p] == files[p])
      && (ManifestPath(projectDir) !in files ==> after == files)
      && (error.Some? <==> ManifestPath(projectDir) !in files && ManifestPath(projectDir) in dirs)
  {
  }

  /** The file system app.py works on: regular files with their text, and directories. */
  class Workspace {
    var files: map<Path, string>
    var dirs: set<Path>

    constructor(files0: map<Path, string>, dirs0: set<Path>)
      ensures files == files0 && dirs == dirs0
    {
      files := files0;
      dirs := dirs0;
    }

    /** `RahlBuilder.customize_project`: read the manifest, replace the placeholder,
        write it back. */
    method CustomizeProject(projectDir: Path, intent: map<string, string>) returns (error: Option<string>)
      modifies this
      ensures (files, error) == Customize(old(files), old(dirs), projectDir, intent)
      ensures dirs == old(dirs)
    {
      var manifest := ManifestPath(projectDir);
      if manifest in files {
        var content := files[manifest];
        content := ReplaceAll(content, Placeholder, PackageOf(intent));
        files := files[manifest := content];
        error := None;
      } else if manifest in dirs {
        error := Some("[Errno 21] Is a directory: " + PyRepr(manifest));
      } else {
        error := None;
      }
    }
  }
}
