/**
 The project-loading side of main.js: the manifest summary `load-project`
 builds from `package.json`, when it records the project as the last one used,
 and how `get-default-path` picks the saved path back up.

 File reads, `JSON.parse` and `fs.existsSync` are inputs: whether the manifest
 exists, the parsed value or the message of the exception reading or parsing
 threw, whether `node_modules` exists, and an existence test for paths.
 */
module Project {
  import opened Opt

  /** A value `JSON.parse` can return. Numbers are kept as exact decimals. */
  datatype Json =
    | JNull
    | JBool(b: bool)
    | JNum(x: real)
    | JStr(s: string)
    | JArr(items: seq<Json>)
    | JObj(fields: seq<(string, Json)>)

  /** JavaScript truthiness of a parsed value (`undefined` is `None` where it can occur). */
  predicate Truthy(v: Json)
  {
    match v
    case JNull => false
    case JBool(b) => b
    case JNum(x) => x != 0.0
    case JStr(s) => s != ""
    case _ => true
  }

  /** The value of `key` in an object's members; `JSON.parse` keeps the last of duplicate keys. */
  function Lookup(fields: seq<(string, Json)>, key: string): (r: Option<Json>)
    ensures r.None? <==> forall i :: 0 <= i < |fields| ==> fields[i].0 != key
    ensures r.Some? ==> exists i :: (0 <= i < |fields| && fields[i] == (key, r.value)
      && forall j :: i < j < |fields| ==> fields[j].0 != key)
  {
    if fields == [] then None
    else if fields[|fields| - 1].0 == key then Some(fields[|fields| - 1].1)
    else Lookup(fields[..|fields| - 1], key)
  }

  /** `v.key` on a value other than `null`: only objects have the properties read here. */
  function Prop(v: Json, key: string): Option<Json>
  {
    if v.JObj? then Lookup(v.fields, key) else None
  }

  /** The result of `field || fallback`: the field when it is truthy, the fallback otherwise. */
  predicate Defaults(field: Option<Json>, fallback: Json, r: Json)
  {
    if field.Some? && Truthy(field.value) then r == field.value else r == fallback
  }

  /** `field || fallback`: never a falsy field, and truthy whenever the fallback is. */
  function Or(field: Option<Json>, fallback: Json): (r: Json)
    ensures r == fallback || (field == Some(r) && Truthy(r))
    ensures field.Some? && Truthy(field.value) ==> r == field.value
    ensures Truthy(fallback) ==> Truthy(r)
  {
    match field
    case Some(v) => if Truthy(v) then v else fallback
    case None => fallback
  }

  const UnknownProject := JStr("Unknown Project")
  const NoVersion := JStr("0.0.0")
  const EmptyObject := JObj([])

  const NoManifest := "No package.json found in this folder"

  /** What reading `pkg.name` on a manifest that parsed to `null` throws. */
  const NullManifest := "Cannot read properties of null (reading 'name')"

  /** `fs.readFileSync` and `JSON.parse` of the manifest: the value, or the message of what they threw. */
  datatype ManifestRead = Parsed(value: Json) | Unreadable(message: string)

  datatype Summary = Summary(
    name: Json,
    version: Json,
    scripts: Json,
    dependencies: Json,
    devDependencies: Json,
    nodeModulesInstalled: bool,
    projectPath: string)

  datatype LoadReply = Loaded(summary: Summary) | LoadError(error: string)

  /** The reply of `load-project` and the path it hands to `saveLastPath`, if any. */
  datatype LoadOutcome = LoadOutcome(reply: LoadReply, saved: Option<string>)

  /** The `load-project` handler. */
  function LoadProject(projectPath: string, manifestExists: bool, manifest: ManifestRead, nodeModulesExists: bool): (o: LoadOutcome)
    ensures o.saved.Some? <==> manifestExists
    ensures o.saved.Some? ==> o.saved.value == projectPath
    ensures !manifestExists ==> o.reply == LoadError(NoManifest)
    ensures manifestExists && manifest.Unreadable? ==> o.reply == LoadError(manifest.message)
    ensures manifestExists && manifest == Parsed(JNull) ==> o.reply == LoadError(NullManifest)
    ensures o.reply.Loaded? <==> manifestExists && manifest.Parsed? && manifest.value != JNull
    ensures o.reply.Loaded? ==>
      var m := o.reply.summary;
      var pkg := manifest.value;
      && Defaults(Prop(pkg, "name"), UnknownProject, m.name)
      && Defaults(Prop(pkg, "version"), NoVersion, m.version)
      && Defaults(Prop(pkg, "scripts"), EmptyObject, m.scripts)
      && Defaults(Prop(pkg, "dependencies"), EmptyObject, m.dependencies)
      && Defaults(Prop(pkg, "devDependencies"), EmptyObject, m.devDependencies)
      && Truthy(m.name) && Truthy(m.version) && Truthy(m.scripts)
      && Truthy(m.dependencies) && Truthy(m.devDependencies)
      && m.nodeModulesInstalled == nodeModulesExists
      && m.projectPath == projectPath
  {
    if !manifestExists then LoadOutcome(LoadError(NoManifest), None)
    else
      var reply :=
        match manifest
        case Unreadable(message) => LoadError(message)
        case Parsed(pkg) =>
          if pkg == JNull then LoadError(NullManifest)
          else Loaded(Summary(
            Or(Prop(pkg, "name"), UnknownProject),
            Or(Prop(pkg, "version"), NoVersion),
            Or(Prop(pkg, "scripts"), EmptyObject),
            Or(Prop(pkg, "dependencies"), EmptyObject),
            Or(Prop(pkg, "devDependencies"), EmptyObject),
            nodeModulesExists,
            projectPath));
      LoadOutcome(reply, Some(projectPath))
  }

  /** The settings file as `getLastPath` finds it: absent, unreadable or not
      JSON (any exception is swallowed), or parsed. */
  datatype SettingsFile = NoSettings | Corrupt | Settings(data: Json)

  /** What `saveLastPath(projectPath)` writes: read back, it yields the path
      whenever that path is non-empty. */
  function Saved(projectPath: string): (f: SettingsFile)
    ensures LastPath(f) == (if projectPath != "" then Some(JStr(projectPath)) else None)
    ensures SavedPath(f) == (if projectPath != "" then Some(projectPath) else None)
  {
    assert Lookup([("lastProjectPath", JStr(projectPath))], "lastProjectPath") == Some(JStr(projectPath));
    Settings(JObj([("lastProjectPath", JStr(projectPath))]))
  }

  /** `getLastPath()`: `data.lastProjectPath || null`, and `null` on any exception
      (reading a property of a `null` document throws). */
  function LastPath(f: SettingsFile): (r: Option<Json>)
    ensures r.Some? ==> Truthy(r.value)
    ensures r.Some? ==> f.Settings? && f.data.JObj? && Lookup(f.data.fields, "lastProjectPath") == r
    ensures (f.Settings? && f.data.JObj? && Lookup(f.data.fields, "lastProjectPath").Some?
             && Truthy(Lookup(f.data.fields, "lastProjectPath").value))
            ==> r == Lookup(f.data.fields, "lastProjectPath")
  {
    match f
    case Settings(data) =>
      if data == JNull then None
      else
        (match Prop(data, "lastProjectPath")
         case Some(v) => if Truthy(v) then Some(v) else None
         case None => None)
    case _ => None
  }

  /** `fs.existsSync(v)`: a value that is not a string is an invalid path and does not exist. */
  function ExistsSync(v: Json, onDisk: string -> bool): bool
  {
    v.JStr? && onDisk(v.s)
  }

  /** The saved project path, when the settings hold a non-empty string for it. */
  function SavedPath(f: SettingsFile): Option<string>
  {
    if f.Settings? && f.data.JObj? then
      match Lookup(f.data.fields, "lastProjectPath")
      case Some(JStr(p)) => if p != "" then Some(p) else None
      case _ => None
    else None
  }

  /** The `get-default-path` handler: the saved path when it still exists,
      otherwise the application-relative `fallback`. */
  function DefaultPath(f: SettingsFile, onDisk: string -> bool, fallback: string): (r: string)
    ensures SavedPath(f).Some? && onDisk(SavedPath(f).value) ==> r == SavedPath(f).value
    ensures r != fallback ==> SavedPath(f) == Some(r) && onDisk(r)
  {
    match LastPath(f)
    case Some(v) => if ExistsSync(v, onDisk) then v.s else fallback
    case None => fallback
  }

  /** What `load-project` saves, `get-default-path` offers next time, provided the
      path is non-empty and still exists; the path is saved even when the
      manifest then fails to parse. */
  lemma LoadThenDefault(projectPath: string, manifest: ManifestRead, nodeModulesExists: bool,
                        onDisk: string -> bool, fallback: string)
    ensures var o := LoadProject(projectPath, true, manifest, nodeModulesExists);
      && o.saved == Some(projectPath)
      && DefaultPath(Saved(o.saved.value), onDisk, fallback) ==
           (if projectPath != "" && onDisk(projectPath) then projectPath else fallback)
  {
  }

  /** A manifest `{}` yields every default. */
  lemma EmptyManifestDefaults(projectPath: string)
    ensures LoadProject(projectPath, true, Parsed(JObj([])), false).reply ==
      Loaded(Summary(JStr("Unknown Project"), JStr("0.0.0"), JObj([]), JObj([]), JObj([]), false, projectPath))
  {
  }

}
