/**
 * The YAML settings file: built-in defaults, the section-wise merge of the
 * user's document over them, and the two-level lookup with a fallback.
 */
module Config {
  import opened Wrappers

  /** A value a YAML document can hold (mapping keys are strings here). */
  datatype Value =
    | Null
    | Bool(b: bool)
    | Int(i: int)
    | Real(r: real)
    | Str(s: string)
    | List(items: seq<Value>)
    | Dict(entries: map<string, Value>)

  /** A configuration: section name to section value. */
  type Settings = map<string, Value>

  /** What reading config.yaml gives: no file, a read or parse error, or a document. */
  datatype ConfigFile = Missing | Unreadable | Document(doc: Value)

  function AudioDefaults(): map<string, Value> {
    map["mix_mic" := Bool(false), "mic_device" := Null, "mic_gain" := Real(1.0), "loopback_gain" := Real(1.0)]
  }

  function TranscriptionDefaults(): map<string, Value> {
    map[
      "min_duration" := Int(60),
      "max_duration" := Int(90),
      "silence_threshold" := Real(0.01),
      "silence_duration" := Real(0.5),
      "max_silent_chunks" := Int(1),
      "silence_chunk_threshold" := Real(0.005)
    ]
  }

  function SynthesisDefaults(): map<string, Value> {
    map["ollama_model" := Str("qwen3:8b"), "logseq_graph_path" := Str("")]
  }

  /** DEFAULT_CONFIG */
  function DefaultConfig(): Settings {
    map["audio" := Dict(AudioDefaults()), "transcription" := Dict(TranscriptionDefaults()), "synthesis" := Dict(SynthesisDefaults())]
  }

  /** Python truthiness: the values `x or {}` replaces. */
  predicate Falsy(v: Value) {
    v == Null || v == Bool(false) || v == Int(0) || v == Real(0.0) || v == Str([]) || v == List([]) || v == Dict(map[])
  }

  /**
   * dict.update(values): a mapping overrides key by key; an iterable of
   * key-value pairs is applied pair by pair; anything else raises (None).
   */
  function UpdateSection(section: map<string, Value>, values: Value): (r: Option<map<string, Value>>)
    ensures r.Some? ==> section.Keys <= r.value.Keys
  {
    match values
    case Dict(e) => Some(section + e)
    case List(items) => UpdatePairs(section, items)
    case Str(s) => if s == [] then Some(section) else None
    case _ => None
  }

  /** An item dict.update takes as a pair: a two-element list with a string key, or a two-character string. */
  predicate IsPair(item: Value) {
    || (item.List? && |item.items| == 2 && item.items[0].Str?)
    || (item.Str? && |item.s| == 2)
  }

  function PairKey(item: Value): string
    requires IsPair(item)
  {
    if item.List? then item.items[0].s else [item.s[0]]
  }

  function PairValue(item: Value): Value
    requires IsPair(item)
  {
    if item.List? then item.items[1] else Str([item.s[1]])
  }

  /** The pairs form of dict.update: the pairs are applied in order; an item that is not a pair raises. */
  function UpdatePairs(section: map<string, Value>, items: seq<Value>): (r: Option<map<string, Value>>)
    ensures r.Some? ==> section.Keys <= r.value.Keys
    decreases |items|
  {
    if items == [] then Some(section)
    else if IsPair(items[0]) then UpdatePairs(section[PairKey(items[0]) := PairValue(items[0])], items[1..])
    else None
  }

  /** A key no pair sets keeps its old value, or stays absent. */
  lemma {:induction false} UpdatePairsUnset(section: map<string, Value>, items: seq<Value>, key: string)
    requires UpdatePairs(section, items).Some?
    requires forall i | 0 <= i < |items| :: !(IsPair(items[i]) && PairKey(items[i]) == key)
    ensures key in UpdatePairs(section, items).value <==> key in section
    ensures key in section ==> UpdatePairs(section, items).value[key] == section[key]
    decreases |items|
  {
    if items != [] {
      UpdatePairsUnset(section[PairKey(items[0]) := PairValue(items[0])], items[1..], key);
    }
  }

  /** As with dict.update, the last pair that sets a key decides its value. */
  lemma {:induction false} UpdatePairsLastWins(section: map<string, Value>, items: seq<Value>, j: nat, key: string)
    requires UpdatePairs(section, items).Some?
    requires j < |items| && IsPair(items[j]) && PairKey(items[j]) == key
    requires forall i | j < i < |items| :: !(IsPair(items[i]) && PairKey(items[i]) == key)
    ensures key in UpdatePairs(section, items).value
    ensures UpdatePairs(section, items).value[key] == PairValue(items[j])
    decreases |items|
  {
    var next := section[PairKey(items[0]) := PairValue(items[0])];
    if j == 0 {
      UpdatePairsUnset(next, items[1..], key);
    } else {
      UpdatePairsLastWins(next, items[1..], j - 1, key);
    }
  }

  /** A default section the user's value is merged into rather than replacing it. */
  predicate MergesInto(defaults: Settings, section: string) {
    section in defaults && defaults[section].Dict?
  }

  /** The user's value for `section` cannot be merged into its default section: update raises. */
  predicate Clashes(defaults: Settings, user: map<string, Value>, section: string)
    requires section in user
  {
    MergesInto(defaults, section) && UpdateSection(defaults[section].entries, user[section]).None?
  }

  /** The merged value of one section. */
  function MergedSection(defaults: Settings, user: map<string, Value>, section: string): Value
    requires section in defaults || section in user
  {
    if section !in user then defaults[section]
    else if MergesInto(defaults, section) then
      match UpdateSection(defaults[section].entries, user[section])
      case Some(e) => Dict(e)
      case None => defaults[section]
    else user[section]
  }

  /** The loop of load_config: None when some section's update raises. */
  function MergeSections(defaults: Settings, user: map<string, Value>): Option<Settings> {
    if exists section | section in user :: Clashes(defaults, user, section) then None
    else Some(map section | section in defaults.Keys + user.Keys :: MergedSection(defaults, user, section))
  }

  /** load_config once the file was read and parsed. */
  function LoadDocument(doc: Value): Settings {
    var user := if Falsy(doc) then Dict(map[]) else doc;
    match user
    case Dict(entries) =>
      (match MergeSections(DefaultConfig(), entries)
       case Some(merged) => merged
       case None => DefaultConfig())
    case _ => DefaultConfig()
  }

  /** load_config: the defaults when the file is missing or cannot be read, the merge otherwise. */
  function Load(file: ConfigFile): Settings {
    match file
    case Missing => DefaultConfig()
    case Unreadable => DefaultConfig()
    case Document(doc) => LoadDocument(doc)
  }

  /** config.get(section, {}).get(key, default): an absent section or key gives the default; a section that is not a mapping raises. */
  function GetValue(config: Settings, section: string, key: string, default: Value): Result<Value, string> {
    if section !in config then Ok(default)
    else match config[section]
      case Dict(e) => Ok(if key in e then e[key] else default)
      case _ => Err("AttributeError")
  }

  // ---------------------------------------------------------------------------
  // The merge loop

  /** The merge after the sections in `done` have been read. */
  function Overlay(defaults: Settings, user: map<string, Value>, done: set<string>): Settings
    requires done <= user.Keys
  {
    map section | section in defaults.Keys + done ::
      if section in done then MergedSection(defaults, user, section) else defaults[section]
  }

  lemma OverlayEmpty(defaults: Settings, user: map<string, Value>)
    ensures Overlay(defaults, user, {}) == defaults
  {
  }

  lemma OverlayStep(defaults: Settings, user: map<string, Value>, done: set<string>, section: string)
    requires done <= user.Keys && section in user && section !in done
    ensures Overlay(defaults, user, done)[section := MergedSection(defaults, user, section)]
         == Overlay(defaults, user, done + {section})
  {
  }

  lemma OverlayUnread(defaults: Settings, user: map<string, Value>, done: set<string>, section: string)
    requires done <= user.Keys && section !in done
    ensures section in Overlay(defaults, user, done) <==> section in defaults
    ensures section in defaults ==> Overlay(defaults, user, done)[section] == defaults[section]
  {
  }

  lemma OverlayAll(defaults: Settings, user: map<string, Value>)
    ensures Overlay(defaults, user, user.Keys)
         == map section | section in defaults.Keys + user.Keys :: MergedSection(defaults, user, section)
  {
  }

  /** A section whose update raises makes the whole merge fail. */
  lemma ClashFails(defaults: Settings, user: map<string, Value>, section: string)
    requires section in user && Clashes(defaults, user, section)
    ensures MergeSections(defaults, user) == None
  {
  }

  /** Without a clash the merge is the overlay of every user section. */
  lemma NoClashMerges(defaults: Settings, user: map<string, Value>)
    requires forall section | section in user :: !Clashes(defaults, user, section)
    ensures MergeSections(defaults, user) == Some(Overlay(defaults, user, user.Keys))
  {
    OverlayAll(defaults, user);
  }

  /** One iteration of the merge loop: update a default section in place, or set the section to the user's value. */
  method MergeSection(defaults: Settings, user: map<string, Value>, result: Settings, section: string, ghost done: set<string>)
    returns (ok: bool, next: Settings)
    requires done <= user.Keys && section in user && section !in done
    requires result == Overlay(defaults, user, done)
    ensures ok <==> !Clashes(defaults, user, section)
    ensures ok ==> next == Overlay(defaults, user, done + {section})
  {
    OverlayStep(defaults, user, done, section);
    OverlayUnread(defaults, user, done, section);
    var values := user[section];
    next := result;
    if section in result && result[section].Dict? {
      var updated := UpdateSection(result[section].entries, values);
      ok := updated.Some?;
      if ok {
        next := result[section := Dict(updated.value)];
      }
    } else {
      ok := true;
      next := result[section := values];
    }
  }

  /** What the merge loop knows after reading the sections in `done`, with `todo` still to read. */
  predicate Merging(defaults: Settings, user: map<string, Value>, todo: set<string>, done: set<string>, result: Settings) {
    && done + todo == user.Keys && done !! todo
    && (forall section | section in done :: !Clashes(defaults, user, section))
    && result == Overlay(defaults, user, done)
  }

  /** Moving one element from `todo` to `done` keeps them a partition of `keys`. */
  lemma MoveOne<T>(keys: set<T>, todo: set<T>, done: set<T>, x: T)
    requires done + todo == keys && done !! todo && x in todo
    ensures (done + {x}) + (todo - {x}) == keys && (done + {x}) !! (todo - {x})
    ensures |todo - {x}| < |todo|
  {
  }

  lemma MergingStep(defaults: Settings, user: map<string, Value>, todo: set<string>, done: set<string>, section: string)
    requires done + todo == user.Keys && done !! todo && section in todo
    requires forall s | s in done :: !Clashes(defaults, user, s)
    requires !Clashes(defaults, user, section)
    ensures Merging(defaults, user, todo - {section}, done + {section}, Overlay(defaults, user, done + {section}))
  {
    MoveOne(user.Keys, todo, done, section);
  }

  /** One pass of the merge loop, bookkeeping included. */
  method MergeNext(defaults: Settings, user: map<string, Value>, todo: set<string>, ghost done: set<string>, result: Settings)
    returns (ok: bool, todo': set<string>, ghost done': set<string>, next: Settings)
    requires todo != {} && Merging(defaults, user, todo, done, result)
    ensures |todo'| < |todo|
    ensures ok ==> Merging(defaults, user, todo', done', next)
    ensures !ok ==> MergeSections(defaults, user) == None
  {
    var section :| section in todo;
    ok, next := MergeSection(defaults, user, result, section, done);
    if !ok {
      ClashFails(defaults, user, section);
    } else {
      MergingStep(defaults, user, todo, done, section);
    }
    MoveOne(user.Keys, todo, done, section);
    todo' := todo - {section};
    done' := done + {section};
  }

  /** The `for section, values in user_config.items()` loop of load_config. */
  method MergeUserConfig(defaults: Settings, user: map<string, Value>) returns (merged: Option<Settings>)
    ensures merged == MergeSections(defaults, user)
  {
    var result := defaults;
    var todo := user.Keys;
    ghost var done: set<string> := {};
    OverlayEmpty(defaults, user);
    while todo != {}
      invariant Merging(defaults, user, todo, done, result)
      decreases |todo|
    {
      var ok;
      ok, todo, done, result := MergeNext(defaults, user, todo, done, result);
      if !ok {
        return None;
      }
    }
    NoClashMerges(defaults, user);
    merged := Some(result);
  }

  /** load_config as the program runs it. */
  method LoadConfig(file: ConfigFile) returns (config: Settings)
    ensures config == Load(file)
  {
    match file
    case Missing =>
      config := DefaultConfig();
    case Unreadable =>
      config := DefaultConfig();
    case Document(doc) =>
      var user := if Falsy(doc) then Dict(map[]) else doc;
      if !user.Dict? {
        config := DefaultConfig();
      } else {
        var merged := MergeUserConfig(DefaultConfig(), user.entries);
        config := if merged.Some? then merged.value else DefaultConfig();
      }
  }

  class ConfigManager {
    var config: Settings

    constructor(file: ConfigFile)
      ensures config == Load(file)
    {
      var loaded := LoadConfig(file);
      config := loaded;
    }

    /** get(section, key, default) */
    method Get(section: string, key: string, default: Value) returns (r: Result<Value, string>)
      ensures r == GetValue(config, section, key, default)
    {
      if section !in config {
        r := Ok(default);
      } else if config[section].Dict? {
        var e := config[section].entries;
        r := Ok(if key in e then e[key] else default);
      } else {
        r := Err("AttributeError");
      }
    }
  }

  // ---------------------------------------------------------------------------
  // What loading promises

  /** Merging keeps every section and every key of the defaults: each default section is still a mapping holding all its default keys. */
  lemma LoadKeepsDefaultKeys(file: ConfigFile)
    ensures var config := Load(file);
      forall section | section in DefaultConfig() ::
        && section in config
        && config[section].Dict?
        && DefaultConfig()[section].entries.Keys <= config[section].entries.Keys
  {
    var config := Load(file);
    var defaults := DefaultConfig();
    if file.Document? {
      var doc := file.doc;
      var user := if Falsy(doc) then Dict(map[]) else doc;
      if user.Dict? && MergeSections(defaults, user.entries).Some? {
        forall section | section in defaults
          ensures section in config && config[section].Dict?
          ensures defaults[section].entries.Keys <= config[section].entries.Keys
        {
          assert config[section] == MergedSection(defaults, user.entries, section);
        }
      }
    }
  }

  /** A key the user sets inside a default section wins over the default, unless some section's update raises. */
  lemma LoadUserValueWins(user: map<string, Value>, section: string, key: string)
    requires section in DefaultConfig() && section in user
    requires user[section].Dict? && key in user[section].entries
    requires MergeSections(DefaultConfig(), user).Some?
    ensures Load(Document(Dict(user))) == MergeSections(DefaultConfig(), user).value
    ensures Load(Document(Dict(user)))[section].entries[key] == user[section].entries[key]
  {
    assert !Falsy(Dict(user));
  }

  /** A default key the user does not mention keeps its default value. */
  lemma LoadUnmentionedKeepsDefault(user: map<string, Value>, section: string, key: string)
    requires section in DefaultConfig() && key in DefaultConfig()[section].entries
    requires section !in user || (user[section].Dict? && key !in user[section].entries)
    requires MergeSections(DefaultConfig(), user).Some?
    ensures Load(Document(Dict(user)))[section].entries[key] == DefaultConfig()[section].entries[key]
  {
    if user == map[] {
      assert Falsy(Dict(user));
    } else {
      assert !Falsy(Dict(user));
    }
  }

  /** Merging a configuration that already holds every default section as a mapping with all its keys gives it back. */
  lemma MergeOfMerged(defaults: Settings, config: Settings)
    requires forall section | MergesInto(defaults, section) ::
      section in config && config[section].Dict? && defaults[section].entries.Keys <= config[section].entries.Keys
    requires defaults.Keys <= config.Keys
    ensures MergeSections(defaults, config) == Some(config)
  {
    forall section | section in config
      ensures !Clashes(defaults, config, section)
      ensures MergedSection(defaults, config, section) == config[section]
    {
      if MergesInto(defaults, section) {
        var e := config[section].entries;
        assert defaults[section].entries + e == e;
      }
    }
    var m := map section | section in defaults.Keys + config.Keys :: MergedSection(defaults, config, section);
    assert m.Keys == config.Keys;
    assert m == config;
  }

  /** Reloading a merged configuration (as save_config would write it) gives it back unchanged. */
  lemma ReloadIsIdentity(file: ConfigFile)
    ensures Load(Document(Dict(Load(file)))) == Load(file)
  {
    var config := Load(file);
    LoadKeepsDefaultKeys(file);
    assert "audio" in config;
    assert !Falsy(Dict(config));
    MergeOfMerged(DefaultConfig(), config);
  }

  /** Every default setting can be read from a loaded configuration without error and without falling back. */
  lemma GetDefaultSetting(file: ConfigFile, section: string, key: string, fallback: Value)
    requires section in DefaultConfig() && key in DefaultConfig()[section].entries
    ensures GetValue(Load(file), section, key, fallback).Ok?
    ensures GetValue(Load(file), section, key, fallback).value == Load(file)[section].entries[key]
    ensures file.Missing? ==> GetValue(Load(file), section, key, fallback).value == DefaultConfig()[section].entries[key]
  {
    LoadKeepsDefaultKeys(file);
  }

  /** A user section with no mapping default to merge into is stored as the user wrote it. */
  lemma LoadStoresOtherSections(user: map<string, Value>, section: string)
    requires section in user && !MergesInto(DefaultConfig(), section)
    requires MergeSections(DefaultConfig(), user).Some?
    ensures section in Load(Document(Dict(user)))
    ensures Load(Document(Dict(user)))[section] == user[section]
  {
    assert !Falsy(Dict(user));
  }

  /** An empty or null document (`yaml.safe_load(f) or {}`) yields exactly the defaults. */
  lemma LoadEmptyDocument(doc: Value)
    requires Falsy(doc)
    ensures Load(Document(doc)) == DefaultConfig()
  {
    var defaults := DefaultConfig();
    var none: map<string, Value> := map[];
    var m := map section | section in defaults.Keys + none.Keys :: MergedSection(defaults, none, section);
    assert m.Keys == defaults.Keys;
    assert m == defaults;
  }

  /** A document that is not a mapping, or whose update raises for some section, falls back to the defaults as a whole. */
  lemma LoadErrorGivesDefaults(doc: Value)
    requires !Falsy(doc)
    requires !doc.Dict? || exists section | section in doc.entries :: Clashes(DefaultConfig(), doc.entries, section)
    ensures Load(Document(doc)) == DefaultConfig()
  {
  }
}
