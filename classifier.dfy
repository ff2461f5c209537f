/** The description classifier of backend/app.py (`analyze_description`): a fixed
    keyword table picks the application type, a second table picks the features,
    and the first three words give the package name. */
module Classifier {
  import opened Text

  /** The six application types the builder knows. */
  datatype AppType = Calculator | Webview | Todo | Notes | Weather | Game

  /** The name the source uses for a type, as stored in `app_type`. */
  function TypeName(t: AppType): string {
    match t
    case Calculator => "calculator"
    case Webview => "webview"
    case Todo => "todo"
    case Notes => "notes"
    case Weather => "weather"
    case Game => "game"
  }

  datatype Feature = DarkMode | Notifications | Database | Sharing | Authentication

  function FeatureName(f: Feature): string {
    match f
    case DarkMode => "dark_mode"
    case Notifications => "notifications"
    case Database => "database"
    case Sharing => "sharing"
    case Authentication => "authentication"
  }

  /** The keyword table, in the order the classifier walks it. */
  const Keywords: seq<(AppType, seq<string>)> := [
    (Calculator, ["calculator", "calculate", "math", "arithmetic", "add", "subtract"]),
    (Webview, ["website", "web", "http", "blog", "site", "browser"]),
    (Todo, ["todo", "to-do", "task", "checklist", "reminder", "schedule"]),
    (Notes, ["note", "notepad", "write", "journal", "diary"]),
    (Weather, ["weather", "forecast", "temperature", "climate"]),
    (Game, ["game", "play", "fun", "entertain", "tic-tac-toe", "puzzle"])
  ]

  /** The type chosen when no keyword matches. */
  const DefaultType: AppType := Webview

  /** Some keyword of `kws` occurs in `text`, testing them in order. */
  predicate AnyHit(kws: seq<string>, text: string)
    decreases |kws|
  {
    kws != [] && (Contains(text, kws[0]) || AnyHit(kws[1..], text))
  }

  /** AnyHit holds exactly when one of the keywords occurs. */
  lemma {:induction false} AnyHitIff(kws: seq<string>, text: string)
    ensures AnyHit(kws, text) <==> exists m :: 0 <= m < |kws| && Contains(text, kws[m])
    decreases |kws|
  {
    if kws != [] {
      AnyHitIff(kws[1..], text);
      if exists m :: 0 <= m < |kws| && Contains(text, kws[m]) {
        var m :| 0 <= m < |kws| && Contains(text, kws[m]);
        if m > 0 {
          assert kws[1..][m - 1] == kws[m];
        }
      }
      if AnyHit(kws[1..], text) {
        var m :| 0 <= m < |kws[1..]| && Contains(text, kws[1..][m]);
        assert kws[m + 1] == kws[1..][m];
      }
    }
  }

  /** The type of the last table entry with a keyword in `text`, searching the
      table from its end; the default type if no entry has one. */
  function LastHit(table: seq<(AppType, seq<string>)>, text: string): AppType
    decreases |table|
  {
    if table == [] then DefaultType
    else if AnyHit(table[|table| - 1].1, text) then table[|table| - 1].0
    else LastHit(table[..|table| - 1], text)
  }

  /** The application type `analyze_description` reports for lower-cased text. */
  function AppTypeOf(lower: string): AppType {
    LastHit(Keywords, lower)
  }

  /** With no hit in any entry the result is the default type. */
  lemma {:induction false} LastHitNone(table: seq<(AppType, seq<string>)>, text: string)
    requires forall i :: 0 <= i < |table| ==> !AnyHit(table[i].1, text)
    ensures LastHit(table, text) == DefaultType
    decreases |table|
  {
    if table != [] {
      var front := table[..|table| - 1];
      assert forall i :: 0 <= i < |front| ==> front[i] == table[i];
      LastHitNone(front, text);
    }
  }

  /** The entry that decides is the LAST one with a hit: every later entry has none. */
  lemma {:induction false} LastHitAt(table: seq<(AppType, seq<string>)>, text: string, i: nat)
    requires i < |table| && AnyHit(table[i].1, text)
    requires forall j :: i < j < |table| ==> !AnyHit(table[j].1, text)
    ensures LastHit(table, text) == table[i].0
    decreases |table|
  {
    var n := |table| - 1;
    if i < n {
      var front := table[..n];
      assert !AnyHit(table[n].1, text);
      assert forall j :: 0 <= j < |front| ==> front[j] == table[j];
      LastHitAt(front, text, i);
    }
  }

  /** One more table entry: it decides if it has a hit, else the earlier ones do. */
  lemma LastHitStep(table: seq<(AppType, seq<string>)>, text: string, i: nat)
    requires i < |table|
    ensures LastHit(table[..i + 1], text)
      == if AnyHit(table[i].1, text) then table[i].0 else LastHit(table[..i], text)
  {
    var t := table[..i + 1];
    assert t[|t| - 1] == table[i];
    assert t[..|t| - 1] == table[..i];
  }

  /** Part of the keyword table's shape: each type has one entry, in this order. */
  lemma KeywordTypesDistinct()
    ensures |Keywords| == 6
    ensures forall i, j :: 0 <= i < j < |Keywords| ==> Keywords[i].0 != Keywords[j].0
  {
  }

  /** An earlier hit never decides against a later one: if two entries both hit,
      the result is not the earlier one's type. "todo game" gives `game`. */
  lemma LaterHitOverrides(text: string, i: nat, j: nat)
    requires i < j < |Keywords|
    requires AnyHit(Keywords[i].1, text) && AnyHit(Keywords[j].1, text)
    ensures AppTypeOf(text) != Keywords[i].0
  {
    KeywordTypesDistinct();
    var k :| j <= k < |Keywords| && AnyHit(Keywords[k].1, text)
      && forall m :: k < m < |Keywords| ==> !AnyHit(Keywords[m].1, text) by {
      LastHitFrom(text, j);
    }
    LastHitAt(Keywords, text, k);
  }

  /** From any entry with a hit, there is a last entry with a hit at or after it. */
  lemma {:induction false} LastHitFrom(text: string, j: nat)
    requires j < |Keywords| && AnyHit(Keywords[j].1, text)
    ensures exists k :: (j <= k < |Keywords| && AnyHit(Keywords[k].1, text)
                         && forall m :: k < m < |Keywords| ==> !AnyHit(Keywords[m].1, text))
    decreases |Keywords| - j
  {
    if exists m :: j < m < |Keywords| && AnyHit(Keywords[m].1, text) {
      var m :| j < m < |Keywords| && AnyHit(Keywords[m].1, text);
      LastHitFrom(text, m);
    } else {
      assert forall m :: j < m < |Keywords| ==> !AnyHit(Keywords[m].1, text);
    }
  }

  /** The source's example of the quirk: "todo game" is a game. */
  lemma TodoGameIsGame()
    ensures AppTypeOf("todo game") == Game
  {
    OccursAtContains("todo game", "game", 5);
    assert AnyHit(Keywords[5].1, "todo game");
  }

  // ---------------------------------------------------------------------------
  // Features

  /** The features in the order the source tests them. */
  const FeatureOrder: seq<Feature> := [DarkMode, Notifications, Database, Sharing, Authentication]

  /** The keywords that switch each feature on. */
  function FeatureWords(f: Feature): seq<string> {
    match f
    case DarkMode => ["dark", "dark mode"]
    case Notifications => ["notification"]
    case Database => ["database", "store", "save"]
    case Sharing => ["share"]
    case Authentication => ["login", "sign in"]
  }

  /** Position of a feature in FeatureOrder. */
  function Rank(f: Feature): nat {
    match f
    case DarkMode => 0
    case Notifications => 1
    case Database => 2
    case Sharing => 3
    case Authentication => 4
  }

  /** `[f]` when one of `f`'s keywords occurs in `text`, else nothing. */
  function Test(f: Feature, text: string): seq<Feature> {
    if AnyHit(FeatureWords(f), text) then [f] else []
  }

  /** The features of `fs` whose keywords occur in `text`, in the order of `fs`. */
  function Select(fs: seq<Feature>, text: string): seq<Feature>
    decreases |fs|
  {
    if fs == [] then [] else Test(fs[0], text) + Select(fs[1..], text)
  }

  /** The feature list `analyze_description` reports for lower-cased text. */
  function FeaturesOf(lower: string): seq<Feature> {
    Select(FeatureOrder, lower)
  }

  lemma {:induction false} SelectMember(fs: seq<Feature>, text: string, f: Feature)
    ensures f in Select(fs, text) <==> f in fs && AnyHit(FeatureWords(f), text)
    decreases |fs|
  {
    if fs != [] {
      SelectMember(fs[1..], text, f);
      assert fs == [fs[0]] + fs[1..];
    }
  }

  lemma FeatureOrderRanks()
    ensures forall i :: 0 <= i < |FeatureOrder| ==> Rank(FeatureOrder[i]) == i
  {
    forall i | 0 <= i < |FeatureOrder| ensures Rank(FeatureOrder[i]) == i {
      if i == 0 {} else if i == 1 {} else if i == 2 {} else if i == 3 {} else {}
    }
  }

  /** A feature is reported exactly when one of its keywords occurs. */
  lemma FeatureIff(lower: string, f: Feature)
    ensures f in FeaturesOf(lower) <==> AnyHit(FeatureWords(f), lower)
  {
    SelectMember(FeatureOrder, lower, f);
    FeatureOrderRanks();
    assert f in FeatureOrder by {
      assert FeatureOrder[Rank(f)] == f;
    }
  }

  predicate Ordered(fs: seq<Feature>) {
    forall i, j :: 0 <= i < j < |fs| ==> Rank(fs[i]) < Rank(fs[j])
  }

  /** Every reported feature comes after the first element of an ordered list. */
  lemma RestAfterHead(fs: seq<Feature>, text: string, x: Feature)
    requires fs != [] && Ordered(fs)
    requires x in Select(fs[1..], text)
    ensures Rank(x) > Rank(fs[0])
  {
    SelectMember(fs[1..], text, x);
    var k :| 0 <= k < |fs[1..]| && fs[1..][k] == x;
    assert fs[k + 1] == x;
  }

  lemma {:induction false} SelectOrdered(fs: seq<Feature>, text: string)
    requires Ordered(fs)
    ensures Ordered(Select(fs, text))
    decreases |fs|
  {
    if fs != [] {
      var rest := Select(fs[1..], text);
      assert Ordered(fs[1..]) by {
        forall i, j | 0 <= i < j < |fs[1..]| ensures Rank(fs[1..][i]) < Rank(fs[1..][j]) {
          assert fs[1..][i] == fs[i + 1] && fs[1..][j] == fs[j + 1];
        }
      }
      SelectOrdered(fs[1..], text);
      if AnyHit(FeatureWords(fs[0]), text) {
        var r := [fs[0]] + rest;
        forall i, j | 0 <= i < j < |r| ensures Rank(r[i]) < Rank(r[j]) {
          assert r[j] == rest[j - 1];
          if i == 0 {
            RestAfterHead(fs, text, r[j]);
          } else {
            assert r[i] == rest[i - 1];
          }
        }
        assert Select(fs, text) == r;
      } else {
        assert Select(fs, text) == rest;
      }
    }
  }

  /** Features come in the fixed order, so none is reported twice. */
  lemma FeaturesOrdered(lower: string)
    ensures var fs := FeaturesOf(lower);
      && (forall i, j :: 0 <= i < j < |fs| ==> Rank(fs[i]) < Rank(fs[j]))
      && (forall i, j :: 0 <= i < j < |fs| ==> fs[i] != fs[j])
  {
    FeatureOrderRanks();
    SelectOrdered(FeatureOrder, lower);
  }

  /** Adding text around a description never loses a feature. */
  lemma FeaturesMonotonic(pre: string, lower: string, post: string, f: Feature)
    requires f in FeaturesOf(lower)
    ensures f in FeaturesOf(pre + lower + post)
  {
    var kws := FeatureWords(f);
    FeatureIff(lower, f);
    AnyHitIff(kws, lower);
    var m :| 0 <= m < |kws| && Contains(lower, kws[m]);
    ContainsInContext(pre, lower, post, kws[m]);
    AnyHitIff(kws, pre + lower + post);
    FeatureIff(pre + lower + post, f);
  }

  // ---------------------------------------------------------------------------
  // Package name

  const PackagePrefix: string := "com.rahl."
  const MaxPackageLength: nat := 50

  /** `f"com.rahl.{'.'.join(words)}".replace(' ', '_').lower()[:50]` over the
      first three words of the lower-cased text. */
  function PackageName(lower: string): string {
    Take(Lower(ReplaceAll(PackagePrefix + JoinWith(".", Take(Words(lower), 3)), " ", "_")), MaxPackageLength)
  }

  /** A character that neither `replace(' ', '_')` nor `lower()` changes. */
  predicate Plain(c: char) {
    c != ' ' && !IsUpper(c)
  }

  /** The prefix and the dot are plain, and so is every character of the words of
      lower-cased text. */
  lemma JoinedWordsPlain(lower: string, ws: seq<string>, c: char)
    requires NoUpper(lower)
    requires forall i :: 0 <= i < |ws| ==> ws[i] in Words(lower)
    requires c in JoinWith(".", ws)
    ensures Plain(c)
  {
    JoinWithChars(".", ws, c);
    if c != '.' {
      var i :| 0 <= i < |ws| && c in ws[i];
      WordsShape(lower);
      assert ws[i] in Words(lower);
      var m :| 0 <= m < |ws[i]| && ws[i][m] == c;
      assert !IsSpace(ws[i][m]);
      assert c in lower;
      var n :| 0 <= n < |lower| && lower[n] == c;
    }
  }

  lemma PrefixPlain(j: string)
    requires StartsWith(j, PackagePrefix)
    ensures forall k :: 0 <= k < |PackagePrefix| ==> Plain(j[k])
  {
    forall k | 0 <= k < |PackagePrefix| ensures Plain(j[k]) {
      assert j[k] == PackagePrefix[k];
    }
  }

  /** The string the package name is cut from has no space and no upper-case letter. */
  lemma PackageSourcePlain(lower: string, j: string)
    requires NoUpper(lower)
    requires j == PackagePrefix + JoinWith(".", Take(Words(lower), 3))
    ensures ' ' !in j && NoUpper(j)
  {
    var ws := Take(Words(lower), 3);
    var tail := JoinWith(".", ws);
    assert StartsWith(j, PackagePrefix);
    PrefixPlain(j);
    forall k | |PackagePrefix| <= k < |j| ensures Plain(j[k]) {
      assert j[k] == tail[k - |PackagePrefix|];
      JoinedWordsPlain(lower, ws, j[k]);
    }
    assert forall k :: 0 <= k < |j| ==> Plain(j[k]);
  }

  /** The `replace` and the second `lower` change nothing: the package name is the
      50-character prefix of "com.rahl." and the first three words joined by ".",
      so it starts with "com.rahl." and has at most 50 characters. */
  lemma PackageNameShape(description: string)
    ensures var lower := Lower(description); var p := PackageName(lower);
      && p == Take(PackagePrefix + JoinWith(".", Take(Words(lower), 3)), MaxPackageLength)
      && StartsWith(p, PackagePrefix)
      && |p| <= MaxPackageLength
  {
    var lower := Lower(description);
    var j := PackagePrefix + JoinWith(".", Take(Words(lower), 3));
    PackageSourcePlain(lower, j);
    ContainsChar(j, ' ');
    ReplaceAbsent(j, " ", "_");
    LowerOfLower(j);
    var p := Take(j, MaxPackageLength);
    assert p[..|PackagePrefix|] == PackagePrefix;
  }

  // ---------------------------------------------------------------------------
  // The classifier itself

  /** What `analyze_description` returns. */
  datatype Analysis = Analysis(appType: AppType, features: seq<Feature>, packageName: string, detectedFeatures: nat)

  /** The analysis of a description, field by field. */
  function AnalysisOf(description: string): Analysis {
    var lower := Lower(description);
    Analysis(AppTypeOf(lower), FeaturesOf(lower), PackageName(lower), |FeaturesOf(lower)|)
  }

  /** The type loop of `analyze_description`: every entry of the table is tried
      in order and each one with a hit overwrites the type (the `break` leaves
      only the keyword loop). */
  method ScanKeywords(lower: string) returns (appType: AppType)
    ensures appType == AppTypeOf(lower)
  {
    appType := DefaultType;
    for i := 0 to |Keywords|
      invariant appType == LastHit(Keywords[..i], lower)
    {
      var entry := Keywords[i];
      var kws := entry.1;
      LastHitStep(Keywords, lower, i);
      AnyHitIff(kws, lower);
      for j := 0 to |kws|
        invariant appType == LastHit(Keywords[..i], lower)
        invariant forall m :: 0 <= m < j ==> !Contains(lower, kws[m])
      {
        if Contains(lower, kws[j]) {
          appType := entry.0;
          break;
        }
      }
    }
    assert Keywords[..|Keywords|] == Keywords;
  }

  /** The feature tests of `analyze_description`, appended in their fixed order. */
  method CollectFeatures(lower: string) returns (features: seq<Feature>)
    ensures features == FeaturesOf(lower)
  {
    features := [];
    TestDarkMode(lower);
    if Contains(lower, "dark") || Contains(lower, "dark mode") {
      features := features + [DarkMode];
    }
    ghost var expected := Test(DarkMode, lower);
    assert features == expected;
    TestNotifications(lower);
    if Contains(lower, "notification") {
      features := features + [Notifications];
    }
    expected := expected + Test(Notifications, lower);
    assert features == expected;
    TestDatabase(lower);
    if Contains(lower, "database") || Contains(lower, "store") || Contains(lower, "save") {
      features := features + [Database];
    }
    expected := expected + Test(Database, lower);
    assert features == expected;
    TestSharing(lower);
    if Contains(lower, "share") {
      features := features + [Sharing];
    }
    expected := expected + Test(Sharing, lower);
    assert features == expected;
    TestAuthentication(lower);
    if Contains(lower, "login") || Contains(lower, "sign in") {
      features := features + [Authentication];
    }
    expected := expected + Test(Authentication, lower);
    assert features == expected;
    FeaturesUnfold(lower);
  }

  /** `analyze_description`: the type loop overwrites `app_type` on every entry
      with a hit (the `break` leaves only the keyword loop), the feature tests
      append in their fixed order, and the package name is built from the words. */
  method AnalyzeDescription(description: string) returns (a: Analysis)
    ensures a.appType == AppTypeOf(Lower(description))
    ensures a.features == FeaturesOf(Lower(description))
    ensures a.packageName == PackageName(Lower(description))
    ensures a.detectedFeatures == |a.features|
    ensures a == AnalysisOf(description)
  {
    var lower := Lower(description);
    var appType := ScanKeywords(lower);
    var features := CollectFeatures(lower);
    var words := Take(Words(lower), 3);
    var packageName := Take(Lower(ReplaceAll(PackagePrefix + JoinWith(".", words), " ", "_")), MaxPackageLength);
    a := Analysis(appType, features, packageName, |features|);
  }

  /** Select tests the first feature, then the rest. */
  lemma SelectCons(f: Feature, rest: seq<Feature>, text: string)
    ensures Select([f] + rest, text) == Test(f, text) + Select(rest, text)
  {
    assert ([f] + rest)[1..] == rest;
  }

  /** Select over five features: the five tests, concatenated in order. */
  lemma SelectFive(a: Feature, b: Feature, c: Feature, d: Feature, e: Feature, text: string)
    ensures Select([a, b, c, d, e], text)
      == Test(a, text) + (Test(b, text) + (Test(c, text) + (Test(d, text) + Test(e, text))))
  {
    SelectCons(e, [], text);
    assert [e] + [] == [e];
    SelectCons(d, [e], text);
    assert [d] + [e] == [d, e];
    SelectCons(c, [d, e], text);
    assert [c] + [d, e] == [c, d, e];
    SelectCons(b, [c, d, e], text);
    assert [b] + [c, d, e] == [b, c, d, e];
    SelectCons(a, [b, c, d, e], text);
    assert [a] + [b, c, d, e] == [a, b, c, d, e];
  }

  lemma ConcatFive(a: seq<Feature>, b: seq<Feature>, c: seq<Feature>, d: seq<Feature>, e: seq<Feature>)
    ensures a + (b + (c + (d + e))) == a + b + c + d + e
  {
  }

  /** FeaturesOf spelled out as the five tests of the source. */
  lemma FeaturesUnfold(lower: string)
    ensures FeaturesOf(lower) == Test(DarkMode, lower) + Test(Notifications, lower)
      + Test(Database, lower) + Test(Sharing, lower) + Test(Authentication, lower)
  {
    SelectFive(DarkMode, Notifications, Database, Sharing, Authentication, lower);
    ConcatFive(Test(DarkMode, lower), Test(Notifications, lower), Test(Database, lower),
               Test(Sharing, lower), Test(Authentication, lower));
  }

  /** Each Test is the condition the source writes out for that feature. */
  lemma TestDarkMode(lower: string)
    ensures Test(DarkMode, lower) == if Contains(lower, "dark") || Contains(lower, "dark mode") then [DarkMode] else []
  {
    assert FeatureWords(DarkMode)[1..] == ["dark mode"];
    assert FeatureWords(DarkMode)[1..][1..] == [];
  }

  lemma TestNotifications(lower: string)
    ensures Test(Notifications, lower) == if Contains(lower, "notification") then [Notifications] else []
  {
    assert FeatureWords(Notifications)[1..] == [];
  }

  lemma TestDatabase(lower: string)
    ensures Test(Database, lower) == if Contains(lower, "database") || Contains(lower, "store") || Contains(lower, "save") then [Database] else []
  {
    assert FeatureWords(Database)[1..] == ["store", "save"];
    assert FeatureWords(Database)[1..][1..] == ["save"];
    assert FeatureWords(Database)[1..][1..][1..] == [];
  }

  lemma TestSharing(lower: string)
    ensures Test(Sharing, lower) == if Contains(lower, "share") then [Sharing] else []
  {
    assert FeatureWords(Sharing)[1..] == [];
  }

  lemma TestAuthentication(lower: string)
    ensures Test(Authentication, lower) == if Contains(lower, "login") || Contains(lower, "sign in") then [Authentication] else []
  {
    assert FeatureWords(Authentication)[1..] == ["sign in"];
    assert FeatureWords(Authentication)[1..][1..] == [];
  }
}
