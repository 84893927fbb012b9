/** The configuration loader: reading YAML and JSON configuration files
    under a configuration root, caching them by path together with their
    modification times, reloading a file only when it has changed on disk,
    and the basic checks a configuration must pass. The file system is a
    parameter: a map from full paths to what is there (modification time
    and what the matching parser makes of the contents). */
module ConfigLoader {
  import opened Text
  import opened Values

  // ---------------------------------------------------------------------
  // Paths
  // ---------------------------------------------------------------------

  /** `s.rfind(c)`, as an index. */
  function LastIndexOf(s: string, c: char): (r: Option<nat>)
    ensures r.None? ==> c !in s
    ensures r.Some? ==> r.value < |s| && s[r.value] == c
    ensures r.Some? ==> forall j :: r.value < j < |s| ==> s[j] != c
  {
    if s == [] then None
    else if s[|s| - 1] == c then Some(|s| - 1)
    else LastIndexOf(s[..|s| - 1], c)
  }

  /** `Path.name`: what follows the last `/`. */
  function LastComponent(p: string): (r: string)
    ensures '/' !in r
  {
    match LastIndexOf(p, '/')
    case None => p
    case Some(i) => p[i + 1..]
  }

  /** `Path.suffix` of a name: from its last `.`, provided that dot is
      neither the first nor the last character; otherwise empty. */
  function Suffix(name: string): (r: string)
    ensures r == [] || (r[0] == '.' && |r| >= 2 && '.' !in r[1..])
  {
    match LastIndexOf(name, '.')
    case Some(i) =>
      if 0 < i < |name| - 1 then
        var ext := name[i + 1..];
        assert forall j :: 0 <= j < |ext| ==> ext[j] == name[i + 1 + j];
        name[i..]
      else []
    case None => []
  }

  /** `config_root / config_path`: an absolute path stands alone and an
      empty one names the root itself. */
  function FullPath(root: string, path: string): string {
    if path == [] then root
    else if path[0] == '/' then path
    else root + "/" + path
  }

  /** Appending characters other than `c` leaves the last `c` where it was. */
  lemma {:induction false} LastIndexOfAppend(q: string, t: string, c: char)
    requires c !in t
    ensures LastIndexOf(q + t, c) == LastIndexOf(q, c)
  {
    if t == [] {
      assert q + t == q;
    } else {
      var init := t[..|t| - 1];
      LastIndexOfAppend(q, init, c);
      assert (q + t)[..|q + t| - 1] == q + init;
      assert (q + t)[|q + t| - 1] == t[|t| - 1];
    }
  }

  /** Appending a part without `/` extends the last component. */
  lemma LastComponentAppend(q: string, t: string)
    requires '/' !in t
    ensures LastComponent(q + t) == LastComponent(q) + t
  {
    LastIndexOfAppend(q, t, '/');
    if LastIndexOf(q, '/').Some? {
      var i := LastIndexOf(q, '/').value;
      assert LastComponent(q) == q[i + 1..];
      assert LastComponent(q + t) == (q + t)[i + 1..];
      assert (q + t)[i + 1..] == q[i + 1..] + t;
    }
  }

  /** A name ending in `.<ext>`, with something before the dot and no dot
      in `<ext>`, has suffix `.<ext>`. */
  lemma SuffixOfName(stem: string, ext: string)
    requires stem != [] && ext != [] && '.' !in ext
    ensures Suffix(stem + "." + ext) == "." + ext
  {
    var name := stem + "." + ext;
    var d := |stem|;
    assert name[d] == '.';
    assert forall j :: d < j < |name| ==> name[j] == ext[j - d - 1];
    assert LastIndexOf(name, '.').value == d;
    assert name[d..] == "." + ext;
  }

  /** Suffix of the configuration file at `root / path`, where `path`
      ends in `<stem>.<ext>`. */
  lemma SuffixOfConfigPath(root: string, dir: string, stem: string, ext: string)
    requires stem != [] && ext != [] && '.' !in ext && '/' !in stem && '/' !in ext
    ensures Suffix(LastComponent(FullPath(root, dir + stem + "." + ext))) == "." + ext
  {
    var path := dir + stem + "." + ext;
    var full := FullPath(root, path);
    var q := if path[0] == '/' then dir else root + "/" + dir;
    assert full == q + (stem + "." + ext);
    assert '/' !in stem + "." + ext;
    LastComponentAppend(q, stem + "." + ext);
    var w := LastComponent(q);
    assert LastComponent(full) == (w + stem) + "." + ext;
    SuffixOfName(w + stem, ext);
  }

  // ---------------------------------------------------------------------
  // Files and formats
  // ---------------------------------------------------------------------

  datatype ConfigFormat = Yaml | JsonFormat

  /** What is at a full path: its modification time and what the parser
      for its format yields (the parsed value, or the parser's error). */
  datatype FileInfo = FileInfo(mtime: real, parsed: Result<Json, string>)

  type FileSystem = map<string, FileInfo>

  datatype LoadError =
    | FileNotFound(fullPath: string)
    | UnsupportedFormat(suffix: string)
    | InvalidContent(format: ConfigFormat, fullPath: string, reason: string)
    | NotADictionary(configPath: string)
    | NotAMapping(configPath: string)

  /** The parser chosen by the lower-cased suffix. */
  function FormatOf(suffix: string): (r: Option<ConfigFormat>)
  {
    var s := Lower(suffix);
    if s == ".yaml" || s == ".yml" then Some(Yaml)
    else if s == ".json" then Some(JsonFormat)
    else None
  }

  /** `_load_yaml` (an empty or false document reads as `{}`) and
      `_load_json`; a parser error becomes a `ValueError`. */
  function ReadFile(format: ConfigFormat, fullPath: string, parsed: Result<Json, string>): (r: Result<Json, LoadError>)
  {
    match parsed
    case Err(reason) => Err(InvalidContent(format, fullPath, reason))
    case Ok(v) =>
      if format == Yaml && !Truthy(v) then Ok(JObj(map[])) else Ok(v)
  }

  /** Parsing fails exactly when the parser does; YAML never yields a
      false value, and JSON is kept as parsed. */
  lemma ReadFileOutcomes(format: ConfigFormat, fullPath: string, parsed: Result<Json, string>)
    ensures ReadFile(format, fullPath, parsed).Err? <==> parsed.Err?
    ensures parsed.Err? ==> ReadFile(format, fullPath, parsed).error == InvalidContent(format, fullPath, parsed.error)
    ensures parsed.Ok? && format == Yaml ==>
      ReadFile(format, fullPath, parsed).value == (if Truthy(parsed.value) then parsed.value else JObj(map[]))
    ensures parsed.Ok? && format == Yaml ==> Truthy(ReadFile(format, fullPath, parsed).value) || ReadFile(format, fullPath, parsed).value == JObj(map[])
    ensures parsed.Ok? && format == JsonFormat ==> ReadFile(format, fullPath, parsed).value == parsed.value
  {
  }

  // ---------------------------------------------------------------------
  // The loader's state and its operations
  // ---------------------------------------------------------------------

  /** The loader's dictionaries: loaded configurations (keys in insertion
      order), modification times at load, and the paths with a registered
      schema validator. */
  datatype LoaderState = LoaderState(
    configurations: map<string, Json>,
    order: seq<string>,
    lastModified: map<string, real>,
    validators: set<string>)

  /** The order lists each loaded path once, and every loaded path has
      its modification time recorded. */
  predicate Consistent(s: LoaderState) {
    Distinct(s.order) && SetOf(s.order) == s.configurations.Keys && s.lastModified.Keys == s.configurations.Keys
  }

  const Empty := LoaderState(map[], [], map[], {})

  /** Assigning to a dict key keeps an existing key in place and appends
      a new one. */
  function Insert(order: seq<string>, key: string): (r: seq<string>)
    ensures Distinct(order) ==> Distinct(r)
    ensures SetOf(r) == SetOf(order) + {key}
  {
    if key in order then order else order + [key]
  }

  function Without(order: seq<string>, key: string): (r: seq<string>)
    ensures SetOf(r) == SetOf(order) - {key}
    ensures Distinct(order) ==> Distinct(r)
  {
    if order == [] then []
    else
      var rest := Without(order[1..], key);
      assert Distinct(order) ==> Distinct(order[1..]) && order[0] !in order[1..];
      if order[0] == key then rest
      else
        assert Distinct(order) ==> order[0] !in rest;
        [order[0]] + rest
  }

  /** `load_configuration`: the file must exist and have a supported
      suffix; validation runs only when asked for and a validator is
      registered for the path, and it only rejects a non-dictionary. A
      success stores the configuration and the file's time. */
  function Load(s: LoaderState, fs: FileSystem, root: string, path: string, validate: bool): (r: (Result<Json, LoadError>, LoaderState))
    ensures r.0.Err? ==> r.1 == s
    ensures r.1.validators == s.validators
    ensures Consistent(s) ==> Consistent(r.1)
  {
    var full := FullPath(root, path);
    if full !in fs then (Err(FileNotFound(full)), s)
    else
      var suffix := Suffix(LastComponent(full));
      match FormatOf(suffix)
      case None => (Err(UnsupportedFormat(suffix)), s)
      case Some(format) =>
        match ReadFile(format, full, fs[full].parsed)
        case Err(e) => (Err(e), s)
        case Ok(config) =>
          if validate && path in s.validators && !config.JObj? then (Err(NotADictionary(path)), s)
          else (Ok(config), s.(configurations := s.configurations[path := config],
                               order := Insert(s.order, path),
                               lastModified := s.lastModified[path := fs[full].mtime]))
  }

  /** The time a reload compares against: the recorded one, else 0. */
  function RecordedTime(s: LoaderState, path: string): real {
    if path in s.lastModified then s.lastModified[path] else 0.0
  }

  /** `reload_configuration`: load again (validating) only when the file
      is strictly newer than recorded; otherwise hand back what is cached,
      or `{}`. */
  function Reload(s: LoaderState, fs: FileSystem, root: string, path: string): (r: (Result<Json, LoadError>, LoaderState))
    ensures r.0.Err? ==> r.1 == s
    ensures r.1.validators == s.validators
    ensures Consistent(s) ==> Consistent(r.1)
  {
    var full := FullPath(root, path);
    if full !in fs then (Err(FileNotFound(full)), s)
    else if fs[full].mtime > RecordedTime(s, path) then Load(s, fs, root, path, true)
    else (Ok(if path in s.configurations then s.configurations[path] else JObj(map[])), s)
  }

  /** `get_configuration`: optionally reload (its errors propagate), then
      look the path up, `{}` when absent. */
  function Fetch(s: LoaderState, fs: FileSystem, root: string, path: string, autoReload: bool): (r: (Result<Json, LoadError>, LoaderState))
    ensures r.0.Err? ==> r.1 == s
    ensures r.1.validators == s.validators
    ensures Consistent(s) ==> Consistent(r.1)
  {
    var (reloaded, s') := if autoReload then Reload(s, fs, root, path) else (Ok(JNull), s);
    if reloaded.Err? then (reloaded, s')
    else (Ok(if path in s'.configurations then s'.configurations[path] else JObj(map[])), s')
  }

  function Clear(s: LoaderState, path: string): (r: LoaderState)
    ensures Consistent(s) ==> Consistent(r)
  {
    s.(configurations := s.configurations - {path},
       order := Without(s.order, path),
       lastModified := s.lastModified - {path})
  }

  function ClearAll(s: LoaderState): (r: LoaderState)
    ensures Consistent(r)
  {
    s.(configurations := map[], order := [], lastModified := map[])
  }

  // ---------------------------------------------------------------------
  // Properties of the operations
  // ---------------------------------------------------------------------

  /** The outcomes of `load_configuration`: a missing file, an unknown
      suffix and a parser error each raise without touching the state; a
      success stores the configuration and the file's time under the path
      and changes nothing else. */
  lemma LoadOutcomes(s: LoaderState, fs: FileSystem, root: string, path: string, validate: bool)
    ensures var full := FullPath(root, path);
      var (r, s') := Load(s, fs, root, path, validate);
      && (full !in fs ==> r == Err(FileNotFound(full)))
      && (full in fs && FormatOf(Suffix(LastComponent(full))).None? ==>
            r == Err(UnsupportedFormat(Suffix(LastComponent(full)))))
      && (full in fs && FormatOf(Suffix(LastComponent(full))).Some? && fs[full].parsed.Err? ==>
            r.Err? && r.error.InvalidContent?)
      && (r.Err? ==> s' == s)
      && (r.Ok? ==>
            && full in fs
            && fs[full].parsed.Ok?
            && s'.configurations == s.configurations[path := r.value]
            && s'.lastModified == s.lastModified[path := fs[full].mtime]
            && s'.order == Insert(s.order, path)
            && s'.validators == s.validators)
  {
  }

  /** Validation is the only check on the contents: a parsed dictionary
      always loads, and anything else is refused exactly when validation
      was asked for and a validator is registered for the path. */
  lemma ValidationOnlyChecksDictionaries(s: LoaderState, fs: FileSystem, root: string, path: string, validate: bool)
    requires FullPath(root, path) in fs
    requires FormatOf(Suffix(LastComponent(FullPath(root, path)))).Some?
    requires fs[FullPath(root, path)].parsed.Ok?
    ensures var full := FullPath(root, path);
      var config := ReadFile(FormatOf(Suffix(LastComponent(full))).value, full, fs[full].parsed).value;
      && (Load(s, fs, root, path, validate).0.Err? <==> validate && path in s.validators && !config.JObj?)
      && (Load(s, fs, root, path, validate).0.Ok? ==> Load(s, fs, root, path, validate).0.value == config)
  {
  }

  /** The format is chosen by suffix regardless of case. */
  lemma FormatIgnoresCase(suffix: string)
    ensures FormatOf(Lower(suffix)) == FormatOf(suffix)
    ensures FormatOf("") == None
  {
    LowerIdempotent(suffix);
  }

  /** `.YAML` selects the YAML parser. */
  lemma UpperCaseYaml()
    ensures FormatOf(".YAML") == Some(Yaml)
  {
    var l := Lower(".YAML");
    assert l[0] == '.' && l[1] == 'y' && l[2] == 'a' && l[3] == 'm' && l[4] == 'l';
    assert l == ".yaml";
  }

  /** `.yaml` selects the YAML parser. */
  lemma LowerCaseYaml()
    ensures FormatOf(".yaml") == Some(Yaml)
  {
    var l := Lower(".yaml");
    assert l[0] == '.' && l[1] == 'y' && l[2] == 'a' && l[3] == 'm' && l[4] == 'l';
    assert l == ".yaml";
  }

  /** A reload loads the file again exactly when it is strictly newer than
      the recorded time (0 for a path never loaded); otherwise it returns
      the cached configuration, or `{}`, and changes nothing. */
  lemma ReloadRule(s: LoaderState, fs: FileSystem, root: string, path: string)
    requires FullPath(root, path) in fs
    ensures var mtime := fs[FullPath(root, path)].mtime;
      && (mtime > RecordedTime(s, path) ==> Reload(s, fs, root, path) == Load(s, fs, root, path, true))
      && (mtime <= RecordedTime(s, path) ==> Reload(s, fs, root, path).1 == s)
      && (mtime <= RecordedTime(s, path) && path in s.configurations ==>
            Reload(s, fs, root, path).0 == Ok(s.configurations[path]))
      && (mtime <= RecordedTime(s, path) && path !in s.configurations ==>
            Reload(s, fs, root, path).0 == Ok(JObj(map[])))
      && (path !in s.lastModified && path !in s.configurations && mtime <= 0.0 ==> Reload(s, fs, root, path) == (Ok(JObj(map[])), s))
  {
  }

  /** Reloading a file that has just been loaded, unchanged on disk,
      returns the stored configuration without touching the state. */
  lemma ReloadAfterLoad(s: LoaderState, fs: FileSystem, root: string, path: string, validate: bool)
    requires Load(s, fs, root, path, validate).0.Ok?
    ensures var (r, s') := Load(s, fs, root, path, validate);
      Reload(s', fs, root, path) == (r, s')
  {
  }

  /** `get_configuration` hands back what the state holds for the path
      after the optional reload, and `{}` for a path never loaded. */
  lemma GetConfigurationReadsState(s: LoaderState, fs: FileSystem, root: string, path: string, autoReload: bool)
    ensures var (r, s') := Fetch(s, fs, root, path, autoReload);
      && (!autoReload ==> s' == s)
      && (autoReload ==> s' == Reload(s, fs, root, path).1)
      && (autoReload ==> (r.Err? <==> Reload(s, fs, root, path).0.Err?))
      && (r.Ok? ==> r.value == (if path in s'.configurations then s'.configurations[path] else JObj(map[])))
      && (r.Ok? && autoReload ==> r == Reload(s, fs, root, path).0)
  {
  }

  /** Clearing a path drops it from both dictionaries and from the listing
      and leaves every other path as it was. */
  lemma ClearRemovesOnlyPath(s: LoaderState, path: string, other: string)
    requires Consistent(s)
    requires other != path
    ensures var s' := Clear(s, path);
      && path !in s'.configurations && path !in s'.lastModified && path !in s'.order
      && (other in s'.configurations <==> other in s.configurations)
      && (other in s.configurations ==> s'.configurations[other] == s.configurations[other])
      && (other in s.lastModified ==> other in s'.lastModified && s'.lastModified[other] == s.lastModified[other])
      && (other in s'.order <==> other in s.order)
      && s'.validators == s.validators
  {
  }

  /** Clearing everything leaves nothing loaded; registered validators
      stay. */
  lemma ClearAllEmpties(s: LoaderState)
    ensures ClearAll(s).configurations == map[]
    ensures ClearAll(s).lastModified == map[]
    ensures !IsConfigurationReady(ClearAll(s))
    ensures ClearAll(s).validators == s.validators
  {
  }

  /** `list_configurations`: the loaded paths, each once. */
  function Listing(s: LoaderState): (r: seq<string>)
    requires Consistent(s)
    ensures SetOf(r) == s.configurations.Keys
    ensures Distinct(r)
  {
    s.order
  }

  /** `is_configuration_ready`: something has been loaded. */
  predicate IsConfigurationReady(s: LoaderState) {
    |s.order| > 0
  }

  lemma ReadyIffLoaded(s: LoaderState)
    requires Consistent(s)
    ensures IsConfigurationReady(s) <==> s.configurations != map[]
  {
    if s.order != [] {
      assert s.order[0] in s.configurations;
    } else {
      assert s.configurations.Keys == {};
    }
  }

  /** A successful load makes the loader ready. */
  lemma LoadMakesReady(s: LoaderState, fs: FileSystem, root: string, path: string, validate: bool)
    requires Consistent(s)
    requires Load(s, fs, root, path, validate).0.Ok?
    ensures IsConfigurationReady(Load(s, fs, root, path, validate).1)
    ensures path in Listing(Load(s, fs, root, path, validate).1)
  {
    var s' := Load(s, fs, root, path, validate).1;
    assert path in SetOf(s'.order);
  }

  // ---------------------------------------------------------------------
  // Module-level helpers
  // ---------------------------------------------------------------------

  /** `validate_configuration`: a dictionary with `name` and `version`. */
  predicate ValidateConfiguration(config: Json) {
    config.JObj? && "name" in config.fields && "version" in config.fields
  }

  /** Both directions of the check, and its relation to the loader's own
      validation, which only asks for a dictionary. */
  lemma ValidateConfigurationSpec(config: Json)
    ensures ValidateConfiguration(config) <==>
      (config.JObj? && "name" in config.fields && "version" in config.fields)
    ensures !config.JObj? ==> !ValidateConfiguration(config)
    ensures ValidateConfiguration(config) ==> config.JObj?
    ensures !ValidateConfiguration(JObj(map[]))
    ensures ValidateConfiguration(JObj(map["name" := JStr("x"), "version" := JNum(1.0)]))
  {
    var m: map<string, Json> := map["name" := JStr("x"), "version" := JNum(1.0)];
    assert "name" in m && "version" in m;
  }

  const AgentsConfigPath := "agents/" + "master_agents" + ".yaml"
  const SystemConfigPath := "core/" + "configuration_loader" + ".yaml"

  /** `load_agent_configuration`: load the agents file (validating), then
      `config.get('agents', {}).get(name, {})`; a value without `.get`
      raises. */
  function LoadAgentConfiguration(s: LoaderState, fs: FileSystem, root: string, agentName: string): (Result<Json, LoadError>, LoaderState)
  {
    var (r, s') := Load(s, fs, root, AgentsConfigPath, true);
    if r.Err? then (r, s')
    else if !r.value.JObj? then (Err(NotAMapping(AgentsConfigPath)), s')
    else
      var agents := Get(r.value.fields, "agents", JObj(map[]));
      if !agents.JObj? then (Err(NotAMapping(AgentsConfigPath)), s')
      else (Ok(Get(agents.fields, agentName, JObj(map[]))), s')
  }

  /** `load_system_configuration`. */
  function LoadSystemConfiguration(s: LoaderState, fs: FileSystem, root: string): (Result<Json, LoadError>, LoaderState)
  {
    Load(s, fs, root, SystemConfigPath, true)
  }

  /** A configuration path ending in `.yaml` is read as YAML. */
  lemma YamlPath(root: string, dir: string, stem: string)
    requires stem != [] && '/' !in stem
    ensures FormatOf(Suffix(LastComponent(FullPath(root, dir + stem + ".yaml")))) == Some(Yaml)
  {
    var ext := "yaml";
    assert "." + ext == ".yaml";
    assert dir + stem + ".yaml" == dir + stem + "." + ext;
    SuffixOfConfigPath(root, dir, stem, ext);
    LowerCaseYaml();
  }

  /** Both fixed configuration files are read as YAML. */
  lemma AgentsFileIsYaml(root: string)
    ensures FormatOf(Suffix(LastComponent(FullPath(root, AgentsConfigPath)))) == Some(Yaml)
  {
    YamlPath(root, "agents/", "master_agents");
  }

  lemma SystemFileIsYaml(root: string)
    ensures FormatOf(Suffix(LastComponent(FullPath(root, SystemConfigPath)))) == Some(Yaml)
  {
    YamlPath(root, "core/", "configuration_loader");
  }

  /** The agent lookup: the named entry under `agents`, `{}` when either
      is missing; it stores the agents file like any load. */
  lemma AgentConfigurationLookup(s: LoaderState, fs: FileSystem, root: string, agentName: string)
    requires Load(s, fs, root, AgentsConfigPath, true).0.Ok?
    requires Load(s, fs, root, AgentsConfigPath, true).0.value.JObj?
    ensures var config := Load(s, fs, root, AgentsConfigPath, true).0.value.fields;
      var (r, s') := LoadAgentConfiguration(s, fs, root, agentName);
      && s' == Load(s, fs, root, AgentsConfigPath, true).1
      && ("agents" !in config ==> r == Ok(JObj(map[])))
      && ("agents" in config && config["agents"].JObj? && agentName in config["agents"].fields ==>
            r == Ok(config["agents"].fields[agentName]))
      && ("agents" in config && config["agents"].JObj? && agentName !in config["agents"].fields ==>
            r == Ok(JObj(map[])))
      && ("agents" in config && !config["agents"].JObj? ==> r.Err?)
  {
  }

  // ---------------------------------------------------------------------
  // The loader object
  // ---------------------------------------------------------------------

  /** `ConfigurationLoader`: its dictionaries are fields that every
      operation updates in place. */
  class ConfigurationLoader {
    const configRoot: string
    var configurations: map<string, Json>
    var order: seq<string>
    var lastModified: map<string, real>
    var schemaValidators: set<string>

    function State(): LoaderState
      reads this
    {
      LoaderState(configurations, order, lastModified, schemaValidators)
    }

    ghost predicate Valid()
      reads this
    {
      Consistent(State())
    }

    constructor(root: string)
      ensures Valid()
      ensures configRoot == root && State() == Empty
    {
      configRoot := root;
      configurations := map[];
      order := [];
      lastModified := map[];
      schemaValidators := {};
    }

    method LoadConfiguration(fs: FileSystem, path: string, validate: bool) returns (r: Result<Json, LoadError>)
      requires Valid()
      modifies this
      ensures Valid()
      ensures (r, State()) == Load(old(State()), fs, configRoot, path, validate)
    {
      var full := FullPath(configRoot, path);
      if full !in fs {
        return Err(FileNotFound(full));
      }
      var suffix := Suffix(LastComponent(full));
      var format := FormatOf(suffix);
      if format.None? {
        return Err(UnsupportedFormat(suffix));
      }
      var read := ReadFile(format.value, full, fs[full].parsed);
      if read.Err? {
        return read;
      }
      var config := read.value;
      if validate && path in schemaValidators && !config.JObj? {
        return Err(NotADictionary(path));
      }
      Store(path, config, fs[full].mtime);
      r := Ok(config);
    }

    /** Records a loaded configuration and its file's time. */
    method Store(path: string, config: Json, mtime: real)
      requires Valid()
      modifies this`configurations, this`order, this`lastModified
      ensures Valid()
      ensures State() == old(State()).(configurations := old(configurations)[path := config],
                                       order := Insert(old(order), path),
                                       lastModified := old(lastModified)[path := mtime])
    {
      configurations := configurations[path := config];
      if path !in order {
        order := order + [path];
      }
      lastModified := lastModified[path := mtime];
    }

    method ReloadConfiguration(fs: FileSystem, path: string) returns (r: Result<Json, LoadError>)
      requires Valid()
      modifies this
      ensures Valid()
      ensures (r, State()) == Reload(old(State()), fs, configRoot, path)
    {
      var full := FullPath(configRoot, path);
      if full !in fs {
        return Err(FileNotFound(full));
      }
      var last := if path in lastModified then lastModified[path] else 0.0;
      if fs[full].mtime > last {
        r := LoadConfiguration(fs, path, true);
        return;
      }
      r := Ok(if path in configurations then configurations[path] else JObj(map[]));
    }

    method GetConfiguration(fs: FileSystem, path: string, autoReload: bool) returns (r: Result<Json, LoadError>)
      requires Valid()
      modifies this
      ensures Valid()
      ensures (r, State()) == Fetch(old(State()), fs, configRoot, path, autoReload)
    {
      if autoReload {
        var reloaded := ReloadConfiguration(fs, path);
        if reloaded.Err? {
          return reloaded;
        }
      }
      r := Ok(if path in configurations then configurations[path] else JObj(map[]));
    }

    method RegisterSchemaValidator(path: string)
      requires Valid()
      modifies this`schemaValidators
      ensures Valid()
      ensures State() == old(State()).(validators := old(schemaValidators) + {path})
    {
      schemaValidators := schemaValidators + {path};
    }

    function ListConfigurations(): (r: seq<string>)
      requires Valid()
      reads this
      ensures SetOf(r) == configurations.Keys && Distinct(r)
    {
      Listing(State())
    }

    method ClearConfiguration(path: string)
      requires Valid()
      modifies this
      ensures Valid()
      ensures State() == Clear(old(State()), path)
    {
      if path in configurations {
        configurations := configurations - {path};
      }
      order := Without(order, path);
      if path in lastModified {
        lastModified := lastModified - {path};
      }
    }

    method ClearAllConfigurations()
      requires Valid()
      modifies this
      ensures Valid()
      ensures State() == ClearAll(old(State()))
    {
      configurations := map[];
      order := [];
      lastModified := map[];
    }
  }
}
