/**
 Settings from the environment, from any number of configuration files given on the command
 line, and from the system's configuration file: which one a flag takes its value from.
 */
module LayeredConfig {
  import opened Values

  /** A parsed configuration file is a table. Every other kind of value is a scalar. */
  datatype Value = Scalar(text: string) | Table(entries: Source)
  type Source = map<string, Value>

  // ---------- Loading the files ----------

  datatype LoadError = NotExist | Unusable(text: string)
  datatype ConfigError = ConfigError(path: string, cause: LoadError)

  /** What reading and parsing each path yields. */
  type Files = string -> Result<Source, LoadError>

  /** Every one of the paths can be read and parsed. */
  ghost predicate AllUsable(files: Files, paths: seq<string>) {
    forall i | 0 <= i < |paths| :: files(paths[i]).Ok?
  }

  function Loaded(files: Files, paths: seq<string>): (sources: seq<Source>)
    requires AllUsable(files, paths)
    ensures |sources| == |paths|
    ensures forall i | 0 <= i < |paths| :: Ok(sources[i]) == files(paths[i])
  {
    if paths == [] then [] else Loaded(files, paths[..|paths| - 1]) + [files(paths[|paths| - 1]).value]
  }

  lemma LoadedNext(files: Files, paths: seq<string>, i: nat)
    requires i < |paths| && AllUsable(files, paths[..i]) && files(paths[i]).Ok?
    ensures AllUsable(files, paths[..i + 1])
    ensures Loaded(files, paths[..i + 1]) == Loaded(files, paths[..i]) + [files(paths[i]).value]
  {
    assert paths[..i + 1][..i] == paths[..i];
  }

  /** The error is that of path i, and every path before it is usable. */
  ghost predicate FirstUnusable(files: Files, paths: seq<string>, error: ConfigError, i: nat) {
    i < |paths| && error.path == paths[i] && files(paths[i]) == Err(error.cause) && AllUsable(files, paths[..i])
  }

  /** The system's file may be missing, or not wanted. */
  predicate SystemIsUsable(files: Files, systemPath: string, noDefaults: bool) {
    noDefaults || files(systemPath).Ok? || files(systemPath).error == NotExist
  }

  /** The files that count, lowest precedence first. */
  function Layers(files: Files, systemPath: string, configs: seq<string>, noDefaults: bool): seq<Source>
    requires AllUsable(files, configs)
  {
    (if !noDefaults && files(systemPath).Ok? then [files(systemPath).value] else []) + Loaded(files, configs)
  }

  /** slices.Reverse */
  method Reverse<T>(a: array<T>)
    modifies a
    ensures forall k | 0 <= k < a.Length :: a[k] == old(a[a.Length - 1 - k])
  {
    var i, j := 0, a.Length - 1;
    while i < j
      invariant 0 <= i <= a.Length && j == a.Length - 1 - i
      invariant i <= j + 2
      invariant forall k | 0 <= k < i || j < k < a.Length :: a[k] == old(a[a.Length - 1 - k])
      invariant forall k | i <= k <= j :: a[k] == old(a[k])
    {
      a[i], a[j] := a[j], a[i];
      i, j := i + 1, j - 1;
    }
  }

  /** Highest precedence first. */
  function Reversed<T>(s: seq<T>): (r: seq<T>)
    ensures |r| == |s|
    ensures forall k | 0 <= k < |s| :: r[k] == s[|s| - 1 - k]
  {
    if s == [] then [] else [s[|s| - 1]] + Reversed(s[..|s| - 1])
  }

  method ReverseSlice<T>(s: seq<T>) returns (r: seq<T>)
    ensures r == Reversed(s)
  {
    var a := new T[|s|](k requires 0 <= k < |s| => s[k]);
    Reverse(a);
    r := a[..];
  }

  /** The loop of bootstrap.Run: the files given on the command line, until the first that is unusable. */
  method LoadConfigs(files: Files, configs: seq<string>) returns (r: Result<seq<Source>, ConfigError>)
    ensures r.Ok? ==> AllUsable(files, configs) && r.value == Loaded(files, configs)
    ensures r.Err? ==> exists i: nat :: FirstUnusable(files, configs, r.error, i)
  {
    var mapSrcs := [];
    for i := 0 to |configs|
      invariant AllUsable(files, configs[..i]) && mapSrcs == Loaded(files, configs[..i])
    {
      var ms := files(configs[i]);
      if ms.Err? {
        var error := ConfigError(configs[i], ms.error);
        assert FirstUnusable(files, configs, error, i);
        return Err(error);
      }
      LoadedNext(files, configs, i);
      mapSrcs := mapSrcs + [ms.value];
    }
    assert configs[..|configs|] == configs;
    return Ok(mapSrcs);
  }

  // ---------- Looking a key up ----------

  const SEPARATOR := '.'
  const CONFIG_TABLE_NAME := "defaults"
  const ENV_PREFIX := "WORMHOLE_"

  /** strings.Split at dots: always at least one section. */
  function Sections(name: string): (sections: seq<string>)
    ensures sections != []
  {
    if name == "" then [""]
    else
      var rest := Sections(name[1..]);
      if name[0] == SEPARATOR then [""] + rest else [[name[0]] + rest[0]] + rest[1..]
  }

  function Traverse(node: Source, sections: seq<string>): Option<Value>
    requires sections != []
    decreases sections
  {
    if sections[0] !in node then None
    else if |sections| == 1 then Some(node[sections[0]])
    else
      match node[sections[0]]
      case Table(child) => Traverse(child, sections[1..])
      case Scalar(_) => None
  }

  /** A dotted name leads through nested tables. */
  function LookupInSource(source: Source, name: string): Option<Value> {
    if name == "" then None else Traverse(source, Sections(name))
  }

  type Environment = map<string, string>
  datatype ValueSource = EnvVar(name: string) | MapValue(key: string, source: Source)

  function Lookup(vs: ValueSource, env: Environment): Option<Value> {
    match vs
    case EnvVar(name) => if name in env then Some(Scalar(env[name])) else None
    case MapValue(key, source) => LookupInSource(source, key)
  }

  /** The chain's answer is that of the first source that has one. */
  function LookupChain(chain: seq<ValueSource>, env: Environment): Option<Value> {
    if chain == [] then None
    else if Lookup(chain[0], env).Some? then Lookup(chain[0], env)
    else LookupChain(chain[1..], env)
  }

  function EnvCharacter(c: char): char {
    if c == '-' then '_' else if 'a' <= c <= 'z' then 'A' + (c - 'a') else c
  }

  function EnvSuffix(flag: string): (suffix: string)
    ensures |suffix| == |flag|
    ensures forall i | 0 <= i < |flag| :: suffix[i] == EnvCharacter(flag[i])
  {
    if flag == "" then "" else EnvSuffix(flag[..|flag| - 1]) + [EnvCharacter(flag[|flag| - 1])]
  }

  function EnvName(flag: string): string {
    ENV_PREFIX + EnvSuffix(flag)
  }

  /**
   The name of the variable: letters in upper case, digits as they are, and an underscore for
   every hyphen, after the common prefix.
   */
  lemma EnvNameAt(flag: string, i: nat)
    requires i < |flag|
    ensures EnvName(flag)[..9] == "WORMHOLE_" && |EnvName(flag)| == 9 + |flag|
    ensures flag[i] == '-' ==> EnvName(flag)[9 + i] == '_'
    ensures '0' <= flag[i] <= '9' ==> EnvName(flag)[9 + i] == flag[i]
    ensures 'a' <= flag[i] <= 'z' ==> 'A' <= EnvName(flag)[9 + i] <= 'Z' && EnvName(flag)[9 + i] - 'A' == flag[i] - 'a'
  {
    assert |ENV_PREFIX| == 9;
    assert EnvName(flag)[9 + i] == EnvSuffix(flag)[i] == EnvCharacter(flag[i]);
  }

  predicate IsFlagCharacter(c: char) {
    'a' <= c <= 'z' || '0' <= c <= '9' || c == '-'
  }

  lemma EnvCharactersAreDistinct(c: char, d: char)
    requires IsFlagCharacter(c) && IsFlagCharacter(d) && EnvCharacter(c) == EnvCharacter(d)
    ensures c == d
  {
  }

  /** No two flags share an environment variable. */
  lemma EnvNamesAreDistinct(a: string, b: string)
    requires forall i | 0 <= i < |a| :: IsFlagCharacter(a[i])
    requires forall i | 0 <= i < |b| :: IsFlagCharacter(b[i])
    requires EnvName(a) == EnvName(b)
    ensures a == b
  {
    var x, y := EnvSuffix(a), EnvSuffix(b);
    assert EnvName(a)[|ENV_PREFIX|..] == x && EnvName(b)[|ENV_PREFIX|..] == y;
    forall i | 0 <= i < |a|
      ensures a[i] == b[i]
    {
      assert EnvCharacter(a[i]) == x[i] == y[i] == EnvCharacter(b[i]);
      EnvCharactersAreDistinct(a[i], b[i]);
    }
  }

  function MapValues(key: string, srcs: seq<Source>): (values: seq<ValueSource>)
    ensures |values| == |srcs|
    ensures forall i | 0 <= i < |srcs| :: values[i] == MapValue(key, srcs[i])
  {
    if srcs == [] then [] else MapValues(key, srcs[..|srcs| - 1]) + [MapValue(key, srcs[|srcs| - 1])]
  }

  function Key(flag: string): string {
    CONFIG_TABLE_NAME + [SEPARATOR] + flag
  }

  function Chain(flag: string, srcs: seq<Source>): seq<ValueSource> {
    [EnvVar(EnvName(flag))] + MapValues(Key(flag), srcs)
  }

  method FlagSources(flag: string, srcs: seq<Source>) returns (chain: seq<ValueSource>)
    ensures chain == Chain(flag, srcs)
  {
    chain := [EnvVar(EnvName(flag))];
    for i := 0 to |srcs|
      invariant chain == Chain(flag, srcs[..i])
    {
      assert srcs[..i + 1][..i] == srcs[..i];
      chain := chain + [MapValue(Key(flag), srcs[i])];
    }
    assert srcs[..|srcs|] == srcs;
  }

  // ---------- First hit is last wins ----------

  lemma {:induction false} SectionsOfPlainName(name: string)
    requires SEPARATOR !in name
    ensures Sections(name) == [name]
  {
    if name != "" {
      assert name[0] in name && [name[0]] + name[1..] == name;
      SectionsOfPlainName(name[1..]);
    }
  }

  lemma {:induction false} SectionsOfQualifiedName(table: string, name: string)
    requires SEPARATOR !in table && SEPARATOR !in name
    ensures Sections(table + [SEPARATOR] + name) == [table, name]
  {
    var whole := table + [SEPARATOR] + name;
    if table == "" {
      assert whole[1..] == name;
      SectionsOfPlainName(name);
    } else {
      assert table[0] in table && [table[0]] + table[1..] == table;
      assert whole[0] == table[0] && whole[1..] == table[1..] + [SEPARATOR] + name;
      SectionsOfQualifiedName(table[1..], name);
    }
  }

  lemma LookupInTable(source: Source, table: string, name: string)
    requires SEPARATOR !in table && SEPARATOR !in name
    ensures LookupInSource(source, table + [SEPARATOR] + name) ==
            if table in source && source[table].Table? && name in source[table].entries
            then Some(source[table].entries[name])
            else None
  {
    SectionsOfQualifiedName(table, name);
    var sections := [table, name];
    assert sections[1..] == [name];
    assert |table + [SEPARATOR] + name| > 0;
    if table in source && source[table].Table? {
      assert Traverse(source, sections) == Traverse(source[table].entries, [name]);
    }
  }

  /** For a flag without a dot, the nested lookup reads the file's defaults table. */
  lemma LookupReadsDefaults(source: Source, flag: string)
    requires SEPARATOR !in flag
    ensures LookupInSource(source, Key(flag)) ==
            if "defaults" in source && source["defaults"].Table? && flag in source["defaults"].entries
            then Some(source["defaults"].entries[flag])
            else None
  {
    LookupInTable(source, CONFIG_TABLE_NAME, flag);
  }

  /** What a file says, flag by flag. */
  ghost function Settings(source: Source): imap<string, Value> {
    imap flag: string | LookupInSource(source, Key(flag)).Some? :: LookupInSource(source, Key(flag)).value
  }

  /** What the environment says, flag by flag. */
  ghost function FromEnvironment(env: Environment): imap<string, Value> {
    imap flag: string | EnvName(flag) in env :: Scalar(env[EnvName(flag)])
  }

  /** All settings, each layer overriding the ones before it. */
  ghost function Merged(layers: seq<Source>): imap<string, Value> {
    if layers == [] then imap[]
    else Merged(layers[..|layers| - 1]) + Settings(layers[|layers| - 1])
  }

  ghost function Get(settings: imap<string, Value>, flag: string): Option<Value> {
    if flag in settings then Some(settings[flag]) else None
  }

  lemma {:induction false} FirstHitIsLastWins(layers: seq<Source>, flag: string, env: Environment)
    ensures LookupChain(MapValues(Key(flag), Reversed(layers)), env) == Get(Merged(layers), flag)
  {
    if layers != [] {
      var n := |layers| - 1;
      var rest := Reversed(layers[..n]);
      assert MapValues(Key(flag), Reversed(layers)) == [MapValue(Key(flag), layers[n])] + MapValues(Key(flag), rest);
      FirstHitIsLastWins(layers[..n], flag, env);
    }
  }

  /**
   For any number of layers and any flag, the chain over the reversed layers answers as the
   merge in which every later layer wins and the environment comes last.
   */
  lemma ChainIsLayeredMerge(layers: seq<Source>, flag: string, env: Environment)
    ensures LookupChain(Chain(flag, Reversed(layers)), env) == Get(Merged(layers) + FromEnvironment(env), flag)
  {
    var chain := Chain(flag, Reversed(layers));
    assert chain[1..] == MapValues(Key(flag), Reversed(layers));
    FirstHitIsLastWins(layers, flag, env);
  }

  // ---------- Which file a flag takes its value from ----------

  /** What a loaded file says about a flag. */
  function Says(files: Files, path: string, flag: string): Option<Value> {
    match files(path)
    case Ok(source) => LookupInSource(source, Key(flag))
    case Err(_) => None
  }

  /** The value in the last of the files that sets the flag. */
  function LastSaid(files: Files, configs: seq<string>, flag: string): Option<Value> {
    if configs == [] then None
    else
      var last := Says(files, configs[|configs| - 1], flag);
      if last.Some? then last else LastSaid(files, configs[..|configs| - 1], flag)
  }

  /** File i sets the flag, and none after it does. */
  ghost predicate SaysLast(files: Files, configs: seq<string>, flag: string, i: nat) {
    && i < |configs| && Says(files, configs[i], flag).Some?
    && forall j: nat | i < j < |configs| :: Says(files, configs[j], flag).None?
  }

  /** It is the last one's, and there is none only if no file sets the flag. */
  lemma {:induction false} LastSaidIff(files: Files, configs: seq<string>, flag: string)
    ensures match LastSaid(files, configs, flag)
            case Some(value) =>
              exists i: nat :: SaysLast(files, configs, flag, i) && Says(files, configs[i], flag) == Some(value)
            case None => forall i: nat | i < |configs| :: Says(files, configs[i], flag).None?
  {
    if configs != [] {
      var n := |configs| - 1;
      if Says(files, configs[n], flag).Some? {
        assert SaysLast(files, configs, flag, n);
      } else {
        var before := configs[..n];
        LastSaidIff(files, before, flag);
        if LastSaid(files, before, flag).Some? {
          var i: nat :|
            SaysLast(files, before, flag, i) && Says(files, before[i], flag) == LastSaid(files, before, flag);
          assert forall j: nat | j < n :: before[j] == configs[j];
          assert SaysLast(files, configs, flag, i);
        } else {
          assert forall j: nat | j < n :: before[j] == configs[j];
        }
      }
    }
  }

  /**
   What the value of a flag is meant to be: the environment's if it is set there, else that of
   the last file given on the command line that sets it, else, unless it is not wanted, that
   of the system's file.
   */
  function FlagValue(files: Files, systemPath: string, configs: seq<string>, noDefaults: bool, flag: string,
                     env: Environment): Option<Value> {
    if EnvName(flag) in env then Some(Scalar(env[EnvName(flag)]))
    else if LastSaid(files, configs, flag).Some? then LastSaid(files, configs, flag)
    else if noDefaults then None
    else Says(files, systemPath, flag)
  }

  lemma MergedLast(layers: seq<Source>, source: Source, flag: string)
    ensures Get(Merged(layers + [source]), flag) ==
            if LookupInSource(source, Key(flag)).Some? then LookupInSource(source, Key(flag))
            else Get(Merged(layers), flag)
  {
    assert (layers + [source])[..|layers|] == layers;
  }

  lemma {:induction false} MergedConfigs(files: Files, base: seq<Source>, configs: seq<string>, flag: string)
    requires AllUsable(files, configs)
    ensures Get(Merged(base + Loaded(files, configs)), flag) ==
            if LastSaid(files, configs, flag).Some? then LastSaid(files, configs, flag) else Get(Merged(base), flag)
  {
    if configs == [] {
      assert base + Loaded(files, configs) == base;
    } else {
      var n := |configs| - 1;
      var source := files(configs[n]).value;
      MergedConfigs(files, base, configs[..n], flag);
      assert base + Loaded(files, configs) == base + Loaded(files, configs[..n]) + [source];
      MergedLast(base + Loaded(files, configs[..n]), source, flag);
    }
  }

  lemma MergedLayers(files: Files, systemPath: string, configs: seq<string>, noDefaults: bool, flag: string)
    requires AllUsable(files, configs)
    ensures Get(Merged(Layers(files, systemPath, configs, noDefaults)), flag) ==
            if LastSaid(files, configs, flag).Some? then LastSaid(files, configs, flag)
            else if noDefaults then None
            else Says(files, systemPath, flag)
  {
    var base := if !noDefaults && files(systemPath).Ok? then [files(systemPath).value] else [];
    assert Layers(files, systemPath, configs, noDefaults) == base + Loaded(files, configs);
    MergedConfigs(files, base, configs, flag);
    MergedSystem(files, systemPath, noDefaults, flag, base);
  }

  lemma MergedSystem(files: Files, systemPath: string, noDefaults: bool, flag: string, base: seq<Source>)
    requires base == if !noDefaults && files(systemPath).Ok? then [files(systemPath).value] else []
    ensures Get(Merged(base), flag) == if noDefaults then None else Says(files, systemPath, flag)
  {
    if base != [] {
      assert base == [] + base;
      MergedLast([], base[0], flag);
    }
  }

  lemma ChainValue(layers: seq<Source>, flag: string, env: Environment)
    ensures LookupChain(Chain(flag, Reversed(layers)), env) ==
            if EnvName(flag) in env then Some(Scalar(env[EnvName(flag)])) else Get(Merged(layers), flag)
  {
    ChainIsLayeredMerge(layers, flag, env);
  }

  /** The chain over the sources, lowest layer last, answers with the value the flag is meant to have. */
  lemma ChainIsFlagValue(files: Files, systemPath: string, configs: seq<string>, noDefaults: bool, flag: string,
                         env: Environment)
    requires AllUsable(files, configs)
    ensures LookupChain(Chain(flag, Reversed(Layers(files, systemPath, configs, noDefaults))), env) ==
            FlagValue(files, systemPath, configs, noDefaults, flag, env)
  {
    ChainValue(Layers(files, systemPath, configs, noDefaults), flag, env);
    MergedLayers(files, systemPath, configs, noDefaults, flag);
  }

  // ---------- bootstrap.Run ----------

  lemma FirstUnusableIsUnusable(files: Files, configs: seq<string>, error: ConfigError)
    requires exists i: nat :: FirstUnusable(files, configs, error, i)
    ensures !AllUsable(files, configs)
  {
  }

  /**
   bootstrap.Run after its flags are parsed: succeeds exactly when every file that was asked
   for is usable, and otherwise reports the first that is not. Over its result every flag
   has the value it is meant to have.
   */
  method Run(files: Files, systemPath: string, configs: seq<string>, noDefaults: bool)
    returns (r: Result<seq<Source>, ConfigError>)
    ensures r.Ok? <==> SystemIsUsable(files, systemPath, noDefaults) && AllUsable(files, configs)
    ensures r.Ok? ==> r.value == Reversed(Layers(files, systemPath, configs, noDefaults))
    ensures r.Ok? ==>
              forall flag: string, env: Environment ::
                LookupChain(Chain(flag, r.value), env) == FlagValue(files, systemPath, configs, noDefaults, flag, env)
    ensures r.Err? && !SystemIsUsable(files, systemPath, noDefaults) ==>
              r.error == ConfigError(systemPath, files(systemPath).error)
    ensures r.Err? && SystemIsUsable(files, systemPath, noDefaults) ==>
              exists i: nat :: FirstUnusable(files, configs, r.error, i)
  {
    var mapSrcs := [];
    if !noDefaults {
      var system := files(systemPath);
      if system.Ok? {
        mapSrcs := [system.value];
      } else if system.error != NotExist {
        return Err(ConfigError(systemPath, system.error));
      }
    }
    var loaded := LoadConfigs(files, configs);
    if loaded.Err? {
      FirstUnusableIsUnusable(files, configs, loaded.error);
      return loaded;
    }
    mapSrcs := ReverseSlice(mapSrcs + loaded.value);
    forall flag: string, env: Environment
      ensures LookupChain(Chain(flag, mapSrcs), env) == FlagValue(files, systemPath, configs, noDefaults, flag, env)
    {
      ChainIsFlagValue(files, systemPath, configs, noDefaults, flag, env);
    }
    return Ok(mapSrcs);
  }
}
