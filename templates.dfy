/** The generated files' bodies. The literal Java, XML and Gradle text is not
    modelled: a body is named by what chooses it (the application type) and by
    the values interpolated into it (the package name, the type's name). */
module Templates {
  import opened Classifier

  /** The four `MainActivity.java` variants; the default one prints the type's name. */
  datatype ActivityKind = CalculatorActivity | WebviewActivity | TodoActivity | SimpleActivity(typeName: string)

  /** The four `activity_main.xml` variants. */
  datatype LayoutKind = CalculatorLayout | WebviewLayout | TodoLayout | SimpleLayout

  datatype Body =
    | ManifestXml(packageName: string)
    | MainActivityJava(kind: ActivityKind, packageName: string)
    | ActivityMainXml(layout: LayoutKind)
    | CalcButtonStyles
    | AppBuildGradle(namespace: string, applicationId: string)
    | ProjectBuildGradle
    | SettingsGradle
    | GradleProperties
    | StringsXml(appName: string)
    | DummyApk

  /** The `if/elif/else` on the type in `generate_main_activity`. */
  function ActivityKindOf(t: AppType): ActivityKind {
    if t == Calculator then CalculatorActivity
    else if t == Webview then WebviewActivity
    else if t == Todo then TodoActivity
    else SimpleActivity(TypeName(t))
  }

  /** The `if/elif/else` on the type in `generate_layouts`. */
  function LayoutKindOf(t: AppType): LayoutKind {
    if t == Calculator then CalculatorLayout
    else if t == Webview then WebviewLayout
    else if t == Todo then TodoLayout
    else SimpleLayout
  }

  /** Calculator, webview and todo each get their own activity and layout; notes,
      weather and game share the default pair, which names the type. */
  lemma KindsAgree(t: AppType)
    ensures ActivityKindOf(t).SimpleActivity? <==> LayoutKindOf(t) == SimpleLayout
    ensures ActivityKindOf(t).SimpleActivity? <==> t in {Notes, Weather, Game}
    ensures ActivityKindOf(t).SimpleActivity? ==> ActivityKindOf(t).typeName == TypeName(t)
  {
  }

  /** The `app_names` table of `generate_strings`. */
  const AppNames: map<AppType, string> := map[
    Calculator := "Rahl Calculator",
    Webview := "Rahl Browser",
    Todo := "Rahl Todo",
    Notes := "Rahl Notes",
    Weather := "Rahl Weather",
    Game := "Rahl Game"]

  /** `app_names.get(app_type, 'Rahl App')`. */
  function AppName(t: AppType): string {
    if t in AppNames then AppNames[t] else "Rahl App"
  }

  /** Every type has its own name in the table, so the fallback is never used. */
  lemma AppNamesCover(t: AppType, u: AppType)
    ensures AppName(t) != "Rahl App"
    ensures t != u ==> AppName(t) != AppName(u)
  {
  }

  /** The app `build.gradle` interpolates the package name twice, as namespace
      and as application id. */
  function AppGradle(packageName: string): Body {
    AppBuildGradle(packageName, packageName)
  }
}
