/**
 * The plugin selector and the per-audience plugin caches of the crawler.
 *
 * Plugin discovery (a foreign library scanning directories) is an input: the
 * sequence of plugin descriptors it found, in discovery order. The
 * configuration file's `crawlers` section is an object (`Config`) because
 * argument resolution writes into it: the arguments of a configured plugin
 * ARE its configuration section.
 */
module PluginsManager {
  import opened Wrappers
  import opened Values

  /** The arguments of one plugin: its configuration section, or a dictionary built in its place. */
  type Section = map<string, Value>

  /** The `options` dictionary handed to the crawler. */
  type Options = map<string, Value>

  /** `config['crawlers']`: one section per configured plugin name. */
  type Crawlers = map<string, Section>

  const AvoidSetns := "avoid_setns"
  const Mountpoint := "mountpoint"
  const RootDir := "root_dir"
  const EnvironmentOption := "environment"
  const DefaultEnvironment := "cloudsight"

  /**
   * A discovered plugin. `feature` is what its `get_feature()` returns, None when
   * the plugin object has no `get_feature`; `envName` is what an environment
   * plugin's `get_environment_name()` returns.
   */
  datatype Plugin = Plugin(name: string, feature: Option<string>, envName: Option<string>)

  /** A selected plugin paired with its resolved arguments. */
  type Loaded = (Plugin, Section)

  datatype Error =
    /** The TypeError raised by `for arg in options[feature]` when that entry is not a dictionary. */
    | FeatureOptionsNotIterable(feature: string)
    /** No environment plugin answers to the requested environment name. */
    | RuntimeEnvironmentPluginNotFound(environment: Value)

  /** The configuration object; its `crawlers` sections are updated in place. */
  class Config {
    var crawlers: Crawlers

    constructor (crawlers: Crawlers)
      ensures this.crawlers == crawlers
    {
      this.crawlers := crawlers;
    }
  }

  // ---------------------------------------------------------------------------
  // Argument resolution, tier by tier
  // ---------------------------------------------------------------------------

  /**
   * Tier 1: the plugin's configuration section, with an `avoid_setns` entry
   * turned into a boolean by the configuration library's `as_bool`; the empty
   * dictionary for a plugin without a section.
   */
  function ConfigTier(p: Plugin, crawlers: Crawlers, asBool: Value -> bool): (r: Section)
    ensures p.name !in crawlers ==> r == map[]
    ensures p.name in crawlers ==> r.Keys == crawlers[p.name].Keys
    ensures p.name in crawlers ==> forall k | k in r && k != AvoidSetns :: r[k] == crawlers[p.name][k]
    ensures p.name in crawlers && AvoidSetns in r ==> r[AvoidSetns] == Bool(asBool(crawlers[p.name][AvoidSetns]))
  {
    if p.name !in crawlers then map[]
    else
      var section := crawlers[p.name];
      if AvoidSetns in section then section[AvoidSetns := Bool(asBool(section[AvoidSetns]))]
      else section
  }

  /**
   * What iterating `options[feature]` and indexing it with each item copies:
   * a dictionary yields its entries and the empty string yields nothing; any
   * other value raises a TypeError (a number or boolean cannot be iterated, a
   * string cannot be indexed by a string), shown as None.
   */
  function FeatureOptions(v: Value): (r: Option<Section>)
    ensures v.Dict? ==> r == Some(v.entries)
    ensures r.Some? && !v.Dict? ==> r == Some(map[])
    ensures r.None? <==> !(v.Dict? || v == Str(""))
  {
    match v
    case Dict(entries) => Some(entries)
    case Str(s) => if s == "" then Some(map[]) else None
    case _ => None
  }

  /**
   * Tier 2: for a plugin with a feature that `options` has an entry for, every
   * option of that entry is written over the arguments, key by key.
   */
  function FeatureTier(args: Section, p: Plugin, options: Options): (r: Result<Section, Error>)
    ensures (p.feature.None? || p.feature.value !in options) ==> r == Ok(args)
    ensures r.Err? <==> p.feature.Some? && p.feature.value in options && FeatureOptions(options[p.feature.value]).None?
    ensures r.Err? ==> r.error == FeatureOptionsNotIterable(p.feature.value)
    ensures r.Ok? && p.feature.Some? && p.feature.value in options ==>
      var copied := FeatureOptions(options[p.feature.value]).value;
      && r.value.Keys == args.Keys + copied.Keys
      && (forall k | k in copied :: r.value[k] == copied[k])
      && (forall k | k in args && k !in copied :: r.value[k] == args[k])
  {
    if p.feature.None? || p.feature.value !in options then Ok(args)
    else match FeatureOptions(options[p.feature.value])
      case None => Err(FeatureOptionsNotIterable(p.feature.value))
      case Some(copied) => Ok(args + copied)
  }

  /**
   * Tier 3, the `try` block: `avoid_setns` is written when the option is
   * exactly True, then `root_dir` takes the mount point. A missing
   * `avoid_setns` option raises KeyError before either write, a missing
   * `mountpoint` before the second; the KeyError is caught and the arguments
   * are kept as they are.
   */
  function GlobalTier(args: Section, options: Options): (r: Section)
    ensures r.Keys <= args.Keys + {AvoidSetns, RootDir}
    ensures forall k | k in args && k != AvoidSetns && k != RootDir :: k in r && r[k] == args[k]
    ensures AvoidSetns in options && options[AvoidSetns] == Bool(true) ==>
      AvoidSetns in r && r[AvoidSetns] == Bool(true)
    ensures !(AvoidSetns in options && options[AvoidSetns] == Bool(true)) ==>
      (AvoidSetns in r <==> AvoidSetns in args) && (AvoidSetns in args ==> r[AvoidSetns] == args[AvoidSetns])
    ensures AvoidSetns in options && Mountpoint in options ==>
      RootDir in r && r[RootDir] == options[Mountpoint]
    ensures !(AvoidSetns in options && Mountpoint in options) ==>
      (RootDir in r <==> RootDir in args) && (RootDir in args ==> r[RootDir] == args[RootDir])
  {
    if AvoidSetns !in options then args
    else
      var a := if options[AvoidSetns] == Bool(true) then args[AvoidSetns := options[AvoidSetns]] else args;
      if Mountpoint !in options then a else a[RootDir := options[Mountpoint]]
  }

  /**
   * The arguments `get_plugin_args` returns: the three tiers in order. Every
   * key of the plugin's section survives; no key appears that is not in the
   * section, in the feature options, or one of `avoid_setns` and `root_dir`.
   */
  function ResolveArgs(p: Plugin, crawlers: Crawlers, options: Options, asBool: Value -> bool): (r: Result<Section, Error>)
    ensures r.Err? ==> p.feature.Some? && r.error == FeatureOptionsNotIterable(p.feature.value)
    ensures r.Ok? && p.name in crawlers ==> crawlers[p.name].Keys <= r.value.Keys
    ensures r.Ok? ==>
      var copied := if p.feature.Some? && p.feature.value in options && FeatureOptions(options[p.feature.value]).Some?
                    then FeatureOptions(options[p.feature.value]).value.Keys else {};
      var section := if p.name in crawlers then crawlers[p.name].Keys else {};
      r.value.Keys <= section + copied + {AvoidSetns, RootDir}
  {
    match FeatureTier(ConfigTier(p, crawlers, asBool), p, options)
    case Ok(args) => Ok(GlobalTier(args, options))
    case Err(e) => Err(e)
  }

  /**
   * `config['crawlers']` after `get_plugin_args`: the plugin's own section has
   * become its arguments (or, when tier 2 raised, the tier-1 section); every
   * other section is untouched.
   */
  function CrawlersAfter(p: Plugin, crawlers: Crawlers, options: Options, asBool: Value -> bool): (c: Crawlers)
    ensures c.Keys == crawlers.Keys
    ensures forall n | n in crawlers && n != p.name :: c[n] == crawlers[n]
    ensures p.name in crawlers && ResolveArgs(p, crawlers, options, asBool).Ok? ==>
      c[p.name] == ResolveArgs(p, crawlers, options, asBool).value
    ensures p.name in crawlers && ResolveArgs(p, crawlers, options, asBool).Err? ==>
      c[p.name] == ConfigTier(p, crawlers, asBool)
  {
    if p.name !in crawlers then crawlers
    else
      var section := match ResolveArgs(p, crawlers, options, asBool)
        case Ok(args) => args
        case Err(_) => ConfigTier(p, crawlers, asBool);
      crawlers[p.name := section]
  }

  /**
   * `get_plugin_args`: builds the arguments by writes into one dictionary; when
   * the plugin has a configuration section that dictionary is the section
   * itself, so each write also lands in `config`.
   */
  method GetPluginArgs(p: Plugin, config: Config, options: Options, asBool: Value -> bool)
    returns (r: Result<Section, Error>)
    modifies config
    ensures r == ResolveArgs(p, old(config.crawlers), options, asBool)
    ensures config.crawlers == CrawlersAfter(p, old(config.crawlers), options, asBool)
  {
    var pluginArgs: Section := map[];
    var aliased := p.name in config.crawlers;
    if aliased {
      pluginArgs := config.crawlers[p.name];
      if AvoidSetns in pluginArgs {
        pluginArgs := pluginArgs[AvoidSetns := Bool(asBool(pluginArgs[AvoidSetns]))];
        config.crawlers := config.crawlers[p.name := pluginArgs];
      }
    }
    ghost var tier1 := pluginArgs;
    assert tier1 == ConfigTier(p, old(config.crawlers), asBool);
    assert aliased ==> config.crawlers == old(config.crawlers)[p.name := pluginArgs];
    assert !aliased ==> config.crawlers == old(config.crawlers);

    if p.feature.Some? && p.feature.value in options {
      var copied := FeatureOptions(options[p.feature.value]);
      if copied.None? {
        return Err(FeatureOptionsNotIterable(p.feature.value));
      }
      var todo := copied.value.Keys;
      while todo != {}
        invariant todo <= copied.value.Keys
        invariant pluginArgs.Keys == tier1.Keys + (copied.value.Keys - todo)
        invariant forall k | k in copied.value && k !in todo :: pluginArgs[k] == copied.value[k]
        invariant forall k | k in tier1 && (k !in copied.value || k in todo) :: pluginArgs[k] == tier1[k]
        decreases todo
      {
        var arg :| arg in todo;
        pluginArgs := pluginArgs[arg := copied.value[arg]];
        todo := todo - {arg};
      }
      assert pluginArgs == tier1 + copied.value;
      if aliased {
        config.crawlers := config.crawlers[p.name := pluginArgs];
        SectionRewritten(old(config.crawlers), p.name, tier1, pluginArgs);
      }
    }
    ghost var tier2 := pluginArgs;
    assert FeatureTier(tier1, p, options) == Ok(tier2);
    assert aliased ==> config.crawlers == old(config.crawlers)[p.name := pluginArgs];
    assert !aliased ==> config.crawlers == old(config.crawlers);

    if AvoidSetns in options {
      if options[AvoidSetns] == Bool(true) {
        pluginArgs := pluginArgs[AvoidSetns := options[AvoidSetns]];
        if aliased {
          config.crawlers := config.crawlers[p.name := pluginArgs];
          SectionRewritten(old(config.crawlers), p.name, tier2, pluginArgs);
        }
      }
      if Mountpoint in options {
        ghost var before := pluginArgs;
        pluginArgs := pluginArgs[RootDir := options[Mountpoint]];
        if aliased {
          config.crawlers := config.crawlers[p.name := pluginArgs];
          SectionRewritten(old(config.crawlers), p.name, before, pluginArgs);
        }
      }
    }
    assert pluginArgs == GlobalTier(tier2, options);
    r := Ok(pluginArgs);
  }

  /** Writing a section twice leaves only the second write. */
  lemma SectionRewritten(c: Crawlers, name: string, first: Section, second: Section)
    ensures c[name := first][name := second] == c[name := second]
  {
  }

  // ---------------------------------------------------------------------------
  // Properties of argument resolution
  // ---------------------------------------------------------------------------

  /** A plugin without a configuration section starts from the empty dictionary and leaves the configuration alone. */
  lemma UnconfiguredPluginStartsEmpty(p: Plugin, crawlers: Crawlers, options: Options, asBool: Value -> bool)
    requires p.name !in crawlers
    ensures CrawlersAfter(p, crawlers, options, asBool) == crawlers
    ensures ResolveArgs(p, crawlers, options, asBool).Ok? ==>
      forall k | k in ResolveArgs(p, crawlers, options, asBool).value ::
        k == AvoidSetns || k == RootDir ||
        (p.feature.Some? && p.feature.value in options && k in FeatureOptions(options[p.feature.value]).value)
  {
  }

  /**
   * Feature options overwrite configuration entries key by key: every key of
   * `options[feature]` has the options' value, unless tier 3 writes that key.
   */
  lemma FeatureOptionsOverrideConfig(p: Plugin, crawlers: Crawlers, options: Options, asBool: Value -> bool, k: string)
    requires p.feature.Some? && p.feature.value in options
    requires options[p.feature.value].Dict? && k in options[p.feature.value].entries
    requires !(k == AvoidSetns && AvoidSetns in options && options[AvoidSetns] == Bool(true))
    requires !(k == RootDir && AvoidSetns in options && Mountpoint in options)
    ensures ResolveArgs(p, crawlers, options, asBool).Ok?
    ensures var args := ResolveArgs(p, crawlers, options, asBool).value;
      k in args && args[k] == options[p.feature.value].entries[k]
  {
  }

  /** Configuration entries that no option mentions reach the arguments unchanged. */
  lemma UnmentionedConfigEntriesKept(p: Plugin, crawlers: Crawlers, options: Options, asBool: Value -> bool, k: string)
    requires p.name in crawlers && k in crawlers[p.name]
    requires k != AvoidSetns && k != RootDir
    requires !(p.feature.Some? && p.feature.value in options && options[p.feature.value].Dict?
               && k in options[p.feature.value].entries)
    requires ResolveArgs(p, crawlers, options, asBool).Ok?
    ensures var args := ResolveArgs(p, crawlers, options, asBool).value;
      k in args && args[k] == crawlers[p.name][k]
  {
  }

  /**
   * `avoid_setns` comes from the options only when that option is exactly
   * True; otherwise the value the first two tiers produced is kept.
   */
  lemma AvoidSetnsFromOptionsOnlyWhenTrue(p: Plugin, crawlers: Crawlers, options: Options, asBool: Value -> bool)
    requires ResolveArgs(p, crawlers, options, asBool).Ok?
    ensures var args := ResolveArgs(p, crawlers, options, asBool).value;
      var earlier := FeatureTier(ConfigTier(p, crawlers, asBool), p, options).value;
      && (AvoidSetns in options && options[AvoidSetns] == Bool(true) ==> args[AvoidSetns] == Bool(true))
      && (!(AvoidSetns in options && options[AvoidSetns] == Bool(true)) ==>
            (AvoidSetns in args <==> AvoidSetns in earlier)
            && (AvoidSetns in earlier ==> args[AvoidSetns] == earlier[AvoidSetns]))
  {
  }

  /**
   * `root_dir` is the mount point exactly when the options hold both
   * `avoid_setns` and `mountpoint`; a missing `avoid_setns` stops `root_dir`
   * even when the mount point is given, and never aborts the resolution.
   */
  lemma RootDirNeedsBothOptions(p: Plugin, crawlers: Crawlers, options: Options, asBool: Value -> bool)
    requires p.name !in crawlers
    requires p.feature.None? || p.feature.value !in options
    ensures ResolveArgs(p, crawlers, options, asBool).Ok?
    ensures var args := ResolveArgs(p, crawlers, options, asBool).value;
      (RootDir in args <==> AvoidSetns in options && Mountpoint in options)
      && (RootDir in args ==> args[RootDir] == options[Mountpoint])
  {
  }

  /** Resolution fails only in tier 2, on a feature entry that cannot be iterated; missing keys in tier 3 never abort it. */
  lemma ResolveFailsOnlyOnFeatureOptions(p: Plugin, crawlers: Crawlers, options: Options, asBool: Value -> bool)
    ensures ResolveArgs(p, crawlers, options, asBool).Err? <==>
      p.feature.Some? && p.feature.value in options && FeatureOptions(options[p.feature.value]).None?
  {
  }

  /**
   * The worked example of argument precedence: configuration `{a: 1}`, feature
   * options `{a: 2, b: 3}`, no cross-cutting options. The feature option wins.
   */
  lemma PrecedenceExample(asBool: Value -> bool)
    ensures var p := Plugin("x", Some("f"), None);
      var crawlers := map["x" := map["a" := Int(1)]];
      var options := map["f" := Dict(map["a" := Int(2), "b" := Int(3)])];
      ResolveArgs(p, crawlers, options, asBool) == Ok(map["a" := Int(2), "b" := Int(3)])
  {
    var p := Plugin("x", Some("f"), None);
    var crawlers: Crawlers := map["x" := map["a" := Int(1)]];
    var options: Options := map["f" := Dict(map["a" := Int(2), "b" := Int(3)])];
    var tier1 := ConfigTier(p, crawlers, asBool);
    assert tier1 == map["a" := Int(1)];
    var copied := map["a" := Int(2), "b" := Int(3)];
    assert (tier1 + copied).Keys == copied.Keys;
    assert tier1 + copied == copied;
    var tier2 := FeatureTier(tier1, p, options);
    assert tier2 == Ok(map["a" := Int(2), "b" := Int(3)]);
    assert GlobalTier(tier2.value, options) == tier2.value;
  }

  /** Two configurations hold the same section (or none) for `name`. */
  ghost predicate SameSection(c: Crawlers, c': Crawlers, name: string)
  {
    (name in c <==> name in c') && (name in c ==> c[name] == c'[name])
  }

  /** Resolution reads the configuration only at the plugin's own name. */
  lemma ResolveReadsOwnSection(p: Plugin, c: Crawlers, c': Crawlers, options: Options, asBool: Value -> bool)
    requires SameSection(c, c', p.name)
    ensures ResolveArgs(p, c, options, asBool) == ResolveArgs(p, c', options, asBool)
  {
    assert ConfigTier(p, c, asBool) == ConfigTier(p, c', asBool);
  }

  /**
   * Resolving a plugin again against the configuration its first resolution
   * wrote into gives the same arguments, provided `as_bool` leaves booleans
   * as they are: the in-place update is harmless to a later reload.
   */
  lemma {:induction false} ResolveStableUnderOwnUpdate(p: Plugin, crawlers: Crawlers, options: Options, asBool: Value -> bool)
    requires forall b: bool :: asBool(Bool(b)) == b
    requires ResolveArgs(p, crawlers, options, asBool).Ok?
    ensures ResolveArgs(p, CrawlersAfter(p, crawlers, options, asBool), options, asBool)
         == ResolveArgs(p, crawlers, options, asBool)
  {
    if p.name in crawlers {
      var args := ResolveArgs(p, crawlers, options, asBool).value;
      var after := CrawlersAfter(p, crawlers, options, asBool);
      assert after[p.name] == args;
      var t1 := ConfigTier(p, after, asBool);
      var t2 := FeatureTier(t1, p, options);
      assert t2.Ok?;
      var again := GlobalTier(t2.value, options);
      var first1 := ConfigTier(p, crawlers, asBool);
      var first2 := FeatureTier(first1, p, options).value;
      assert args == GlobalTier(first2, options);
      assert again.Keys == args.Keys;
      forall k | k in args
        ensures again[k] == args[k]
      {
        if k == AvoidSetns && AvoidSetns in first2 && !(AvoidSetns in options && options[AvoidSetns] == Bool(true)) {
          if p.feature.Some? && p.feature.value in options && k in FeatureOptions(options[p.feature.value]).value {
          } else {
            assert first2[k] == first1[k] == Bool(asBool(crawlers[p.name][k]));
            assert t1[k] == Bool(asBool(args[k]));
          }
        }
      }
      assert again == args;
    }
  }

  // ---------------------------------------------------------------------------
  // Selection and the loading walk
  // ---------------------------------------------------------------------------

  /** The `filter_func` handed to the walk. */
  datatype Selector =
    /** `plugin_selection_filter` with the enabled names and the requested features. */
    | SelectCrawlers(enabled: set<string>, features: seq<string>)
    /** The environment filter of `reload_env_plugin`. */
    | SelectEnvironment(environment: Value)

  /**
   * The filter can be asked about `p` without raising: the crawler filter calls
   * `get_feature()` unless the name is enabled, the environment filter calls
   * `get_environment_name()`.
   */
  predicate CanAsk(sel: Selector, p: Plugin)
  {
    match sel
    case SelectCrawlers(enabled, _) => p.name in enabled || p.feature.Some?
    case SelectEnvironment(_) => p.envName.Some?
  }

  predicate AllAskable(sel: Selector, ps: seq<Plugin>)
  {
    forall q | q in ps :: CanAsk(sel, q)
  }

  /**
   * `plugin_selection_filter`: enabled by name, or its feature is requested.
   * The feature is asked for only when the name is not enabled.
   */
  predicate PluginSelectionFilter(p: Plugin, enabled: set<string>, features: seq<string>)
    requires p.name in enabled || p.feature.Some?
    ensures p.name in enabled ==> PluginSelectionFilter(p, enabled, features)
    ensures p.name !in enabled ==> (PluginSelectionFilter(p, enabled, features) <==> p.feature.value in features)
  {
    p.name in enabled || p.feature.value in features
  }

  /** Whether the walk's filter keeps `p`: the crawler filter, or the environment name compared with the requested one. */
  predicate Selects(sel: Selector, p: Plugin)
    requires CanAsk(sel, p)
    ensures sel.SelectCrawlers? ==>
      (Selects(sel, p) <==> PluginSelectionFilter(p, sel.enabled, sel.features))
    ensures sel.SelectEnvironment? ==>
      (Selects(sel, p) <==> sel.environment.Str? && sel.environment.s == p.envName.value)
  {
    match sel
    case SelectCrawlers(enabled, features) => PluginSelectionFilter(p, enabled, features)
    case SelectEnvironment(environment) => Str(p.envName.value) == environment
  }

  /** The plugins the filter keeps, in discovery order. */
  function SelectedOf(ps: seq<Plugin>, sel: Selector): (s: seq<Plugin>)
    requires AllAskable(sel, ps)
    ensures |s| <= |ps|
    ensures forall q | q in s :: q in ps && Selects(sel, q)
    ensures forall q | q in ps && Selects(sel, q) :: q in s
  {
    if ps == [] then []
    else if Selects(sel, ps[0]) then [ps[0]] + SelectedOf(ps[1..], sel)
    else SelectedOf(ps[1..], sel)
  }

  /** The plugins of a list of loaded pairs. */
  function Firsts(xs: seq<Loaded>): (ps: seq<Plugin>)
    ensures |ps| == |xs|
    ensures forall k | 0 <= k < |xs| :: ps[k] == xs[k].0
  {
    if xs == [] then [] else [xs[0].0] + Firsts(xs[1..])
  }

  /** Puts `x` in front of the pairs a later part of the walk produced; an error stays an error. */
  function Prepend(xs: seq<Loaded>, w: (Result<seq<Loaded>, Error>, Crawlers)): (v: (Result<seq<Loaded>, Error>, Crawlers))
  {
    match w.0
    case Ok(rest) => (Ok(xs + rest), w.1)
    case Err(e) => (Err(e), w.1)
  }

  lemma PrependNothing(w: (Result<seq<Loaded>, Error>, Crawlers))
    ensures Prepend([], w) == w
  {
    if w.0.Ok? {
      assert [] + w.0.value == w.0.value;
    }
  }

  lemma PrependTwice(xs: seq<Loaded>, x: Loaded, w: (Result<seq<Loaded>, Error>, Crawlers))
    ensures Prepend(xs, Prepend([x], w)) == Prepend(xs + [x], w)
  {
    if w.0.Ok? {
      assert xs + ([x] + w.0.value) == (xs + [x]) + w.0.value;
    }
  }

  /**
   * `_load_plugins` after discovery: the loaded pairs (or the error that ended
   * the walk) and the configuration sections as the walk left them.
   */
  function Walk(ps: seq<Plugin>, sel: Selector, crawlers: Crawlers, options: Options, asBool: Value -> bool)
    : (w: (Result<seq<Loaded>, Error>, Crawlers))
    requires AllAskable(sel, ps)
    ensures w.1.Keys == crawlers.Keys
    decreases |ps|
  {
    if ps == [] then (Ok([]), crawlers)
    else if !Selects(sel, ps[0]) then Walk(ps[1..], sel, crawlers, options, asBool)
    else
      var after := CrawlersAfter(ps[0], crawlers, options, asBool);
      match ResolveArgs(ps[0], crawlers, options, asBool)
      case Err(e) => (Err(e), after)
      case Ok(args) => Prepend([(ps[0], args)], Walk(ps[1..], sel, after, options, asBool))
  }

  /**
   * `_load_plugins`: walks the discovered plugins in order and pairs every
   * plugin the filter keeps with its resolved arguments.
   */
  method LoadPlugins(discovered: seq<Plugin>, sel: Selector, config: Config, options: Options, asBool: Value -> bool)
    returns (r: Result<seq<Loaded>, Error>)
    requires AllAskable(sel, discovered)
    modifies config
    ensures (r, config.crawlers) == Walk(discovered, sel, old(config.crawlers), options, asBool)
  {
    var loaded: seq<Loaded> := [];
    var i := 0;
    assert discovered[0..] == discovered;
    PrependNothing(Walk(discovered, sel, config.crawlers, options, asBool));
    while i < |discovered|
      invariant 0 <= i <= |discovered|
      invariant AllAskable(sel, discovered[i..])
      invariant Walk(discovered, sel, old(config.crawlers), options, asBool)
             == Prepend(loaded, Walk(discovered[i..], sel, config.crawlers, options, asBool))
    {
      var plugin := discovered[i];
      assert discovered[i..][0] == plugin;
      assert discovered[i..][1..] == discovered[i + 1..];
      if Selects(sel, plugin) {
        ghost var before := config.crawlers;
        var args := GetPluginArgs(plugin, config, options, asBool);
        if args.Err? {
          return Err(args.error);
        }
        PrependTwice(loaded, (plugin, args.value), Walk(discovered[i + 1..], sel, config.crawlers, options, asBool));
        loaded := loaded + [(plugin, args.value)];
      }
      i := i + 1;
    }
    assert discovered[i..] == [];
    assert loaded + [] == loaded;
    r := Ok(loaded);
  }

  // ---------------------------------------------------------------------------
  // Properties of the walk
  // ---------------------------------------------------------------------------

  /** The walk loads exactly the selected plugins, in discovery order, each once. */
  lemma {:induction false} WalkLoadsSelectedInOrder(ps: seq<Plugin>, sel: Selector, crawlers: Crawlers, options: Options, asBool: Value -> bool)
    requires AllAskable(sel, ps)
    ensures var w := Walk(ps, sel, crawlers, options, asBool).0;
      w.Ok? ==> Firsts(w.value) == SelectedOf(ps, sel)
    decreases |ps|
  {
    if ps != [] {
      if !Selects(sel, ps[0]) {
        WalkLoadsSelectedInOrder(ps[1..], sel, crawlers, options, asBool);
      } else if ResolveArgs(ps[0], crawlers, options, asBool).Ok? {
        var after := CrawlersAfter(ps[0], crawlers, options, asBool);
        WalkLoadsSelectedInOrder(ps[1..], sel, after, options, asBool);
        var w := Walk(ps, sel, crawlers, options, asBool).0;
        if w.Ok? {
          var rest := Walk(ps[1..], sel, after, options, asBool).0.value;
          assert w.value == [(ps[0], ResolveArgs(ps[0], crawlers, options, asBool).value)] + rest;
          assert Firsts(w.value) == [ps[0]] + Firsts(rest);
        }
      }
    }
  }

  /** A plugin is loaded iff it was discovered and the filter keeps it. */
  lemma SelectedIffKept(ps: seq<Plugin>, sel: Selector, crawlers: Crawlers, options: Options, asBool: Value -> bool, q: Plugin)
    requires AllAskable(sel, ps)
    requires Walk(ps, sel, crawlers, options, asBool).0.Ok?
    ensures q in Firsts(Walk(ps, sel, crawlers, options, asBool).0.value) <==> q in ps && Selects(sel, q)
  {
    WalkLoadsSelectedInOrder(ps, sel, crawlers, options, asBool);
  }

  /** The walk fails iff some kept plugin has a feature entry in the options that cannot be iterated. */
  lemma {:induction false} WalkFailsOnlyOnFeatureOptions(ps: seq<Plugin>, sel: Selector, crawlers: Crawlers, options: Options, asBool: Value -> bool)
    requires AllAskable(sel, ps)
    ensures Walk(ps, sel, crawlers, options, asBool).0.Err? <==>
      exists q | q in ps :: Selects(sel, q) && ResolveArgs(q, crawlers, options, asBool).Err?
    decreases |ps|
  {
    if ps != [] {
      var after := CrawlersAfter(ps[0], crawlers, options, asBool);
      forall q
        ensures ResolveArgs(q, after, options, asBool).Err? == ResolveArgs(q, crawlers, options, asBool).Err?
      {
        ResolveFailsOnlyOnFeatureOptions(q, crawlers, options, asBool);
        ResolveFailsOnlyOnFeatureOptions(q, after, options, asBool);
      }
      if !Selects(sel, ps[0]) {
        WalkFailsOnlyOnFeatureOptions(ps[1..], sel, crawlers, options, asBool);
      } else if ResolveArgs(ps[0], crawlers, options, asBool).Ok? {
        WalkFailsOnlyOnFeatureOptions(ps[1..], sel, after, options, asBool);
      }
      assert forall q | q in ps :: q == ps[0] || q in ps[1..];
    }
  }

  /** Names are unique among the discovered plugins. */
  ghost predicate DistinctNames(ps: seq<Plugin>)
  {
    forall i, j | 0 <= i < j < |ps| :: ps[i].name != ps[j].name
  }

  /**
   * With unique names every loaded plugin's arguments are its resolution
   * against the configuration as it stood before the walk (`c0`), whatever the
   * walk wrote into the other sections.
   */
  lemma {:induction false} WalkResolvesAgainst(ps: seq<Plugin>, sel: Selector, c: Crawlers, c0: Crawlers, options: Options, asBool: Value -> bool)
    requires AllAskable(sel, ps)
    requires DistinctNames(ps)
    requires forall q | q in ps :: SameSection(c, c0, q.name)
    ensures var w := Walk(ps, sel, c, options, asBool).0;
      w.Ok? ==> forall k | 0 <= k < |w.value| :: ResolveArgs(w.value[k].0, c0, options, asBool) == Ok(w.value[k].1)
    decreases |ps|
  {
    if ps != [] {
      var p := ps[0];
      assert p in ps;
      if !Selects(sel, p) {
        WalkResolvesAgainst(ps[1..], sel, c, c0, options, asBool);
        assert Walk(ps, sel, c, options, asBool) == Walk(ps[1..], sel, c, options, asBool);
      } else if ResolveArgs(p, c, options, asBool).Ok? {
        ResolveReadsOwnSection(p, c, c0, options, asBool);
        var after := CrawlersAfter(p, c, options, asBool);
        forall q | q in ps[1..]
          ensures SameSection(after, c0, q.name)
        {
          var j :| 0 <= j < |ps[1..]| && ps[1..][j] == q;
          assert ps[j + 1] == q;
        }
        WalkResolvesAgainst(ps[1..], sel, after, c0, options, asBool);
        var w := Walk(ps, sel, c, options, asBool).0;
        if w.Ok? {
          var rest := Walk(ps[1..], sel, after, options, asBool).0.value;
          assert w.value == [(p, ResolveArgs(p, c, options, asBool).value)] + rest;
          forall k | 0 <= k < |w.value|
            ensures ResolveArgs(w.value[k].0, c0, options, asBool) == Ok(w.value[k].1)
          {
            if k > 0 {
              assert w.value[k] == rest[k - 1];
            } else {
              assert w.value[k] == (p, ResolveArgs(p, c, options, asBool).value);
            }
          }
        }
      }
    }
  }

  /** Each loaded plugin is paired with `get_plugin_args` of that plugin, when names are unique. */
  lemma PairsCarryResolvedArgs(ps: seq<Plugin>, sel: Selector, crawlers: Crawlers, options: Options, asBool: Value -> bool)
    requires AllAskable(sel, ps)
    requires DistinctNames(ps)
    ensures var w := Walk(ps, sel, crawlers, options, asBool).0;
      w.Ok? ==> forall k | 0 <= k < |w.value| :: ResolveArgs(w.value[k].0, crawlers, options, asBool) == Ok(w.value[k].1)
  {
    WalkResolvesAgainst(ps, sel, crawlers, crawlers, options, asBool);
  }

  /** The first plugin the filter keeps is the first discovered plugin it accepts. */
  lemma {:induction false} FirstSelected(ps: seq<Plugin>, sel: Selector)
    requires AllAskable(sel, ps)
    ensures SelectedOf(ps, sel) == [] <==> forall q | q in ps :: !Selects(sel, q)
    ensures SelectedOf(ps, sel) != [] ==>
      exists i | 0 <= i < |ps| :: ps[i] == SelectedOf(ps, sel)[0] && Selects(sel, ps[i])
        && forall j | 0 <= j < i :: !Selects(sel, ps[j])
    decreases |ps|
  {
    if ps != [] && !Selects(sel, ps[0]) {
      FirstSelected(ps[1..], sel);
      if SelectedOf(ps, sel) != [] {
        var i :| 0 <= i < |ps[1..]| && ps[1..][i] == SelectedOf(ps, sel)[0] && Selects(sel, ps[1..][i])
          && forall j | 0 <= j < i :: !Selects(sel, ps[1..][j]);
        assert ps[i + 1] == SelectedOf(ps, sel)[0];
        assert forall j | 0 <= j < i + 1 :: !Selects(sel, ps[j]) by {
          forall j | 0 <= j < i + 1 ensures !Selects(sel, ps[j]) {
            if j > 0 { assert ps[j] == ps[1..][j - 1]; }
          }
        }
      }
      assert forall q | q in ps :: q == ps[0] || q in ps[1..];
    } else if ps != [] {
      assert Selects(sel, ps[0]);
    }
  }

  /** With an empty options dictionary (as the lazy getters and the environment reload pass) the walk cannot fail. */
  lemma WalkWithoutOptionsSucceeds(ps: seq<Plugin>, sel: Selector, crawlers: Crawlers, asBool: Value -> bool)
    requires AllAskable(sel, ps)
    ensures Walk(ps, sel, crawlers, map[], asBool).0.Ok?
  {
    WalkFailsOnlyOnFeatureOptions(ps, sel, crawlers, map[], asBool);
  }

  /**
   * A plugin enabled in the configuration, with an empty section and no
   * options, is loaded with empty arguments.
   */
  lemma EnabledLoadPluginScenario(asBool: Value -> bool)
    ensures var load := Plugin("load", Some("load"), None);
      var crawlers := map["load" := map[]];
      Walk([load], SelectCrawlers(crawlers.Keys, ["load"]), crawlers, map[], asBool)
        == (Ok([(load, map[])]), crawlers)
  {
    var load := Plugin("load", Some("load"), None);
    var crawlers: Crawlers := map["load" := map[]];
    assert [load][1..] == [];
    assert ConfigTier(load, crawlers, asBool) == map[];
    assert ResolveArgs(load, crawlers, map[], asBool) == Ok(map[]);
    assert CrawlersAfter(load, crawlers, map[], asBool) == crawlers;
    var empty: seq<Plugin> := [];
    var loaded: seq<Loaded> := [(load, map[])];
    assert Walk(empty, SelectCrawlers(crawlers.Keys, ["load"]), crawlers, map[], asBool) == (Ok([]), crawlers);
    assert loaded + [] == loaded;
  }

  // ---------------------------------------------------------------------------
  // The per-audience caches and the runtime environment
  // ---------------------------------------------------------------------------

  /** Whose plugins a cache holds. */
  datatype Audience = Container | Vm | Host

  /**
   * The module-level state of the plugin manager: one cache of loaded crawl
   * plugins per audience and the resolved runtime-environment plugin.
   */
  class ManagerState {
    var containerCrawlPlugins: seq<Loaded>
    var vmCrawlPlugins: seq<Loaded>
    var hostCrawlPlugins: seq<Loaded>
    var runtimeEnv: Option<Plugin>

    /** The state at import time: every cache empty, no environment plugin. */
    constructor ()
      ensures containerCrawlPlugins == [] && vmCrawlPlugins == [] && hostCrawlPlugins == []
      ensures runtimeEnv == None
    {
      containerCrawlPlugins, vmCrawlPlugins, hostCrawlPlugins := [], [], [];
      runtimeEnv := None;
    }

    function Cache(a: Audience): (c: seq<Loaded>)
      reads this
    {
      match a
      case Container => containerCrawlPlugins
      case Vm => vmCrawlPlugins
      case Host => hostCrawlPlugins
    }

    /**
     * `reload_container_crawl_plugins`, `reload_vm_crawl_plugins` and
     * `reload_host_crawl_plugins`: the audience's cache is replaced wholesale
     * by the walk over the discovered plugins of that audience, with the
     * configured plugin names as the enabled list. When the walk raises, the
     * cache keeps its old contents. Nothing else in the state changes.
     */
    method Reload(a: Audience, discovered: seq<Plugin>, config: Config, features: seq<string>,
                  options: Options, asBool: Value -> bool)
      returns (err: Option<Error>)
      requires AllAskable(SelectCrawlers(config.crawlers.Keys, features), discovered)
      modifies this, config
      ensures var w := Walk(discovered, SelectCrawlers(old(config.crawlers).Keys, features), old(config.crawlers), options, asBool);
        && config.crawlers == w.1
        && (w.0.Ok? ==> err == None && Cache(a) == w.0.value)
        && (w.0.Err? ==> err == Some(w.0.error) && Cache(a) == old(Cache(a)))
      ensures forall b | b != a :: Cache(b) == old(Cache(b))
      ensures runtimeEnv == old(runtimeEnv)
    {
      var enabled := config.crawlers.Keys;
      var loaded := LoadPlugins(discovered, SelectCrawlers(enabled, features), config, options, asBool);
      if loaded.Err? {
        return Some(loaded.error);
      }
      match a {
        case Container => containerCrawlPlugins := loaded.value;
        case Vm => vmCrawlPlugins := loaded.value;
        case Host => hostCrawlPlugins := loaded.value;
      }
      err := None;
    }

    /**
     * `get_container_crawl_plugins` and its VM and host twins: a non-empty
     * cache is returned as it is, with nothing reloaded; an empty one is
     * reloaded first, with an empty options dictionary. An empty selection
     * therefore reloads again on every call.
     */
    method Get(a: Audience, discovered: seq<Plugin>, config: Config, features: seq<string>, asBool: Value -> bool)
      returns (r: Result<seq<Loaded>, Error>)
      requires AllAskable(SelectCrawlers(config.crawlers.Keys, features), discovered)
      modifies this, config
      ensures old(Cache(a)) != [] ==>
        r == Ok(old(Cache(a))) && config.crawlers == old(config.crawlers) && Cache(a) == old(Cache(a))
      ensures old(Cache(a)) == [] ==>
        var w := Walk(discovered, SelectCrawlers(old(config.crawlers).Keys, features), old(config.crawlers), map[], asBool);
        && config.crawlers == w.1
        && r == w.0
        && (w.0.Ok? ==> Cache(a) == w.0.value)
      ensures r.Ok? ==> r.value == Cache(a)
      ensures forall b | b != a :: Cache(b) == old(Cache(b))
      ensures runtimeEnv == old(runtimeEnv)
    {
      if Cache(a) == [] {
        var err := Reload(a, discovered, config, features, map[], asBool);
        WalkWithoutOptionsSucceeds(discovered, SelectCrawlers(old(config.crawlers).Keys, features), old(config.crawlers), asBool);
        assert err.None?;
      }
      r := Ok(Cache(a));
    }

    /**
     * `reload_env_plugin`: the environment plugin is the first discovered one
     * whose environment name equals `options['environment']` (default
     * `cloudsight`); the walk itself runs with empty options. When none
     * matches, RuntimeEnvironmentPluginNotFound is raised and the previous
     * environment plugin stays. The crawl caches are untouched.
     */
    method ReloadEnvPlugin(discovered: seq<Plugin>, config: Config, options: Options, asBool: Value -> bool)
      returns (r: Result<Plugin, Error>)
      requires forall q | q in discovered :: q.envName.Some?
      modifies this, config
      ensures var environment := if EnvironmentOption in options then options[EnvironmentOption] else Str(DefaultEnvironment);
        var chosen := SelectedOf(discovered, SelectEnvironment(environment));
        && config.crawlers == Walk(discovered, SelectEnvironment(environment), old(config.crawlers), map[], asBool).1
        && (chosen == [] ==> r == Err(RuntimeEnvironmentPluginNotFound(environment)) && runtimeEnv == old(runtimeEnv))
        && (chosen != [] ==> r == Ok(chosen[0]) && runtimeEnv == Some(chosen[0]))
      ensures forall b :: Cache(b) == old(Cache(b))
    {
      var environment := if EnvironmentOption in options then options[EnvironmentOption] else Str(DefaultEnvironment);
      var sel := SelectEnvironment(environment);
      ghost var before := config.crawlers;
      var plugins := LoadPlugins(discovered, sel, config, map[], asBool);
      WalkWithoutOptionsSucceeds(discovered, sel, before, asBool);
      WalkLoadsSelectedInOrder(discovered, sel, before, map[], asBool);
      assert Firsts(plugins.value) == SelectedOf(discovered, sel);
      if |plugins.value| == 0 {
        return Err(RuntimeEnvironmentPluginNotFound(environment));
      }
      runtimeEnv := Some(plugins.value[0].0);
      r := Ok(plugins.value[0].0);
    }

    /**
     * `get_runtime_env_plugin`: the cached environment plugin when there is
     * one, otherwise the result of `reload_env_plugin` with no options.
     */
    method GetRuntimeEnvPlugin(discovered: seq<Plugin>, config: Config, asBool: Value -> bool)
      returns (r: Result<Plugin, Error>)
      requires forall q | q in discovered :: q.envName.Some?
      modifies this, config
      ensures old(runtimeEnv).Some? ==>
        r == Ok(old(runtimeEnv).value) && runtimeEnv == old(runtimeEnv) && config.crawlers == old(config.crawlers)
      ensures old(runtimeEnv).None? ==>
        var chosen := SelectedOf(discovered, SelectEnvironment(Str(DefaultEnvironment)));
        && config.crawlers == Walk(discovered, SelectEnvironment(Str(DefaultEnvironment)), old(config.crawlers), map[], asBool).1
        && (chosen == [] ==> r == Err(RuntimeEnvironmentPluginNotFound(Str(DefaultEnvironment))) && runtimeEnv == None)
        && (chosen != [] ==> r == Ok(chosen[0]) && runtimeEnv == Some(chosen[0]))
      ensures forall b :: Cache(b) == old(Cache(b))
    {
      if runtimeEnv.None? {
        r := ReloadEnvPlugin(discovered, config, map[], asBool);
      } else {
        r := Ok(runtimeEnv.value);
      }
    }
  }

  /**
   * Two calls of a getter with no reload in between: once the first call has
   * filled the cache, the second returns the identical list.
   */
  method GetTwice(m: ManagerState, a: Audience, discovered: seq<Plugin>, config: Config, features: seq<string>, asBool: Value -> bool)
    returns (first: Result<seq<Loaded>, Error>, second: Result<seq<Loaded>, Error>)
    requires AllAskable(SelectCrawlers(config.crawlers.Keys, features), discovered)
    modifies m, config
    ensures first.Ok? && first.value != [] ==> second == first
  {
    first := m.Get(a, discovered, config, features, asBool);
    second := m.Get(a, discovered, config, features, asBool);
  }
}
