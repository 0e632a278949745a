/**
 * The reconciliation state machine of the mu-plugins autoloader, as
 * functions of the environment and the object's fields. Each `After...`
 * function gives, in closed form, the state one method of the class
 * leaves behind; the class in autoloader.dfy implements the methods as the
 * PHP code does (update_cache and count_plugins calling each other) and is
 * proved to end in exactly these states. The lemmas below are about whole
 * load cycles and admin requests.
 */
module Reconcile {
  import opened Wrappers
  import opened PluginMaps

  /**
   * The `wps_autoloader` site option, and the `$cache` field that holds it:
   * `['plugins' => ..., 'count' => ...]`, where either field may be missing
   * or null. An unset `$cache` behaves as a record with neither field.
   */
  datatype Record = Record(plugins: Option<PluginMap>, count: Option<int>)

  /** What the WordPress and filesystem calls answer during one request. */
  datatype Env = Env(
    autoPlugins: PluginMap,       // get_plugins('/../mu-plugins'): plugins one folder down
    muPlugins: PluginMap,         // get_mu_plugins(): single-file must-use plugins
    files: set<string>,           // plugin files, relative to WPMU_PLUGIN_DIR, that file_exists
    dirCount: nat,                // count(glob(WPMU_PLUGIN_DIR . '/*/', GLOB_ONLYDIR))
    stored: Option<Record>,       // get_site_option('wps_autoloader'); None is `false`
    screenBase: Option<string>,   // get_current_screen()->base; None without a screen
    multisite: bool,              // is_multisite()
    canActivatePlugins: bool)     // current_user_can('activate_plugins')

  /** The object's fields, and the effects the request has had so far. */
  datatype State = State(
    cache: Record,
    autoPlugins: Option<PluginMap>,
    muPlugins: Option<PluginMap>,
    count: Option<int>,
    activated: Option<PluginMap>,
    written: seq<Record>,         // update_site_option calls, in order
    included: seq<string>,        // include_once calls, in order
    fired: seq<string>,           // do_action calls, in order
    listing: Option<PluginMap>)   // what was assigned to $GLOBALS['plugins']['mustuse']

  const Unset := Record(None, None)

  /** A new instance: every field unset, nothing done yet. */
  function Fresh(): State {
    State(Unset, None, None, None, None, [], [], [], None)
  }

  /** Every plugin file of `m` exists on disk. */
  predicate AllFilesExist(env: Env, m: PluginMap) {
    forall e :: e in m ==> e.file in env.files
  }

  // ---------------------------------------------------------------------------
  // update_cache and count_plugins

  /** The plugins the autoloader manages: autoloaded plugins not also seen as must-use plugins. */
  function Candidates(env: Env): (r: PluginMap)
    ensures forall e :: e in r <==> e in env.autoPlugins && e.file !in Keys(env.muPlugins)
    ensures Subsequence(r, env.autoPlugins)
  {
    DiffKey(env.autoPlugins, env.muPlugins)
  }

  /** `$activated`: everything on a rebuild, otherwise what the previous cache did not have. */
  function Delta(previous: Option<PluginMap>, plugins: PluginMap): (r: PluginMap)
    ensures previous.None? ==> r == plugins
    ensures previous.Some? ==> forall e :: e in r <==> e in plugins && e.file !in Keys(previous.value)
    ensures Subsequence(r, plugins)
  {
    if previous.None? then SubsequenceRefl(plugins); plugins else DiffKey(plugins, previous.value)
  }

  /** count_plugins' test: no cached count, or the scanned count differs from it. */
  predicate ScanDisagrees(env: Env, cache: Record) {
    cache.count != Some(env.dirCount)
  }

  /** update_cache re-enters itself through count_plugins exactly when the count field is unset and the scan disagrees. */
  predicate Reenters(env: Env, s: State) {
    s.count.None? && ScanDisagrees(env, s.cache)
  }

  /** The count field after update_cache: kept, set from the scan, or left unset. */
  function CountAfterUpdate(env: Env, s: State): Option<int> {
    if s.count.Some? then s.count
    else if ScanDisagrees(env, s.cache) then Some(env.dirCount)
    else None
  }

  /**
   * The state update_cache leaves: the recomputed plugins with the count that
   * count_plugins returned, the delta against the cache as it was on entry,
   * and one written record per update_cache invocation (two when it re-entered).
   */
  function AfterUpdateCache(env: Env, s: State): State {
    var plugins := Candidates(env);
    var count := CountAfterUpdate(env, s);
    var rec := Record(Some(plugins), count);
    s.(cache := rec,
       autoPlugins := Some(env.autoPlugins),
       muPlugins := Some(env.muPlugins),
       count := count,
       activated := Some(Delta(s.cache.plugins, plugins)),
       written := s.written + if Reenters(env, s) then [rec, rec] else [rec])
  }

  /** The state count_plugins leaves, and what it returns. */
  function AfterCountPlugins(env: Env, s: State): (State, Option<int>) {
    if s.count.Some? then (s, s.count)
    else if ScanDisagrees(env, s.cache) then (AfterUpdateCache(env, s.(count := Some(env.dirCount))), Some(env.dirCount))
    else (s, None)
  }

  // ---------------------------------------------------------------------------
  // check_cache, validate_plugins, plugin_hooks, load_plugins

  /** check_cache's staleness test on the stored option. */
  predicate StoredIsStale(stored: Option<Record>) {
    || stored.None?
    || (stored.value.plugins.Some? && stored.value.count.Some? && |stored.value.plugins.value| != stored.value.count.value)
  }

  function AfterCheckCache(env: Env, s: State): State {
    if StoredIsStale(env.stored) then AfterUpdateCache(env, s) else s.(cache := env.stored.value)
  }

  function AfterValidatePlugins(env: Env, s: State): State {
    if s.cache.plugins.Some? && !AllFilesExist(env, s.cache.plugins.value) then AfterUpdateCache(env, s) else s
  }

  /** The include_once of every cached plugin, in order. */
  function AfterIncludes(s: State): State {
    s.(included := s.included + Keys(s.cache.plugins.GetOr([])))
  }

  function AfterPluginHooks(s: State): State {
    if s.activated.None? then s else s.(fired := s.fired + HookNames(s.activated.value))
  }

  function AfterLoadPlugins(env: Env, s: State): State {
    var checked := AfterCheckCache(env, s);
    var validated := AfterValidatePlugins(env, checked);
    var counted := AfterCountPlugins(env, validated).0;
    AfterPluginHooks(AfterIncludes(counted))
  }

  /** The state a request's autoloader is in once its constructor has run. */
  function Loaded(env: Env): State {
    AfterLoadPlugins(env, Fresh())
  }

  // ---------------------------------------------------------------------------
  // show_in_admin

  /** The guard: the right plugins screen, the must-use list, and a user who may activate plugins. */
  predicate ShowsAutoloaded(env: Env, pluginType: string) {
    && env.screenBase == Some(if env.multisite then "plugins-network" else "plugins")
    && pluginType == "mustuse"
    && env.canActivatePlugins
  }

  function AfterShowInAdmin(env: Env, s: State, show: bool, pluginType: string): (State, bool) {
    if !ShowsAutoloaded(env, pluginType) then (s, show)
    else
      var t := AfterUpdateCache(env, s);
      (t.(autoPlugins := Some(Decorate(env.autoPlugins)), listing := Some(Listing(env.autoPlugins, env.muPlugins))), false)
  }

  // ---------------------------------------------------------------------------
  // Properties of one recompute

  /**
   * The recursive shape of the source: update_cache is the three field
   * updates, then count_plugins, then the cache and option write with the
   * count it returned; and count_plugins, once it has set the count field,
   * re-enters update_cache, whose own count_plugins call returns at once.
   * The closed forms above satisfy these equations.
   */
  lemma UpdateCacheUnfolds(env: Env, s: State)
    ensures var plugins := Candidates(env);
      var mid := s.(autoPlugins := Some(env.autoPlugins), muPlugins := Some(env.muPlugins),
                    activated := Some(Delta(s.cache.plugins, plugins)));
      var (t, c) := AfterCountPlugins(env, mid);
      AfterUpdateCache(env, s) == t.(cache := Record(Some(plugins), c), written := t.written + [Record(Some(plugins), c)])
    ensures s.count.None? && ScanDisagrees(env, s.cache) ==>
      var s' := s.(count := Some(env.dirCount));
      AfterCountPlugins(env, s') == (s', s'.count)
  {
  }

  /**
   * After update_cache the cache holds exactly the autoloaded plugins whose
   * keys are not must-use plugins, in their order; the option written last is
   * that cache; and update_cache ran once, or twice when it re-entered.
   */
  lemma UpdateCacheSnapshot(env: Env, s: State)
    ensures var t := AfterUpdateCache(env, s);
      && t.cache.plugins.Some?
      && (forall e :: e in t.cache.plugins.value <==> e in env.autoPlugins && e.file !in Keys(env.muPlugins))
      && Subsequence(t.cache.plugins.value, env.autoPlugins)
      && |t.written| == |s.written| + (if Reenters(env, s) then 2 else 1)
      && t.written[|t.written| - 1] == t.cache
      && t.written[..|s.written|] == s.written
  {
  }

  /**
   * The activation delta: on a rebuild (no plugins array in the cache) all the
   * new plugins, otherwise exactly the new plugins whose keys the previous
   * cache lacked.
   */
  lemma UpdateCacheDelta(env: Env, s: State)
    ensures var t := AfterUpdateCache(env, s);
      && t.activated.Some?
      && (s.cache.plugins.None? ==> t.activated.value == Candidates(env))
      && (s.cache.plugins.Some? ==> forall e :: e in t.activated.value <==>
            e in Candidates(env) && e.file !in Keys(s.cache.plugins.value))
  {
  }

  /**
   * Two recomputes in an unchanged environment agree on the plugins, and the
   * second finds nothing newly activated. They store the same record unless
   * the first stored a null count.
   */
  lemma RecomputeTwice(env: Env, s: State)
    ensures var t1 := AfterUpdateCache(env, s);
      var t2 := AfterUpdateCache(env, t1);
      && t2.cache.plugins == t1.cache.plugins
      && t2.activated == Some([])
      && (t1.cache.count.Some? ==> t2.cache == t1.cache)
      && (t1.cache.count.None? ==> t2.cache.count == Some(env.dirCount))
  {
  }

  /**
   * count_plugins: a set count is returned without a scan; otherwise it sets
   * the field and recomputes exactly when the scan disagrees with the cached
   * count, and returns the unset field (null) when it agrees.
   */
  lemma CountPluginsCases(env: Env, s: State)
    ensures s.count.Some? ==> AfterCountPlugins(env, s) == (s, s.count)
    ensures s.count.None? && ScanDisagrees(env, s.cache) ==>
      && AfterCountPlugins(env, s).1 == Some(env.dirCount)
      && AfterCountPlugins(env, s).0.count == Some(env.dirCount)
      && |AfterCountPlugins(env, s).0.written| == |s.written| + 1
    ensures s.count.None? && !ScanDisagrees(env, s.cache) ==> AfterCountPlugins(env, s) == (s, None)
  {
  }

  // ---------------------------------------------------------------------------
  // Whole load cycles

  /** What a load that ends with `plugins` cached and `activated` as the delta includes and fires. */
  ghost predicate Outcome(t: State, plugins: PluginMap, count: Option<int>, written: seq<Record>, activated: PluginMap) {
    && t.cache == Record(Some(plugins), count)
    && t.written == written
    && t.included == Keys(plugins)
    && t.fired == HookNames(activated)
  }

  /**
   * With no stored option, the load recomputes (writing the option twice, once
   * per update_cache invocation), includes every managed plugin and fires one
   * activation hook for each, in order.
   */
  lemma FirstLoad(env: Env)
    requires env.stored.None? && AllFilesExist(env, Candidates(env))
    ensures var rec := Record(Some(Candidates(env)), Some(env.dirCount));
      Outcome(Loaded(env), Candidates(env), Some(env.dirCount), [rec, rec], Candidates(env))
  {
  }

  /**
   * The same first load when a plugin get_plugins reports fails file_exists
   * (its folder is not the one WPMU_PLUGIN_DIR names): validate_plugins
   * recomputes a third time against the cache just built, so `$activated`
   * ends empty and no hook fires at all.
   */
  lemma FirstLoadMissingFile(env: Env)
    requires env.stored.None? && !AllFilesExist(env, Candidates(env))
    ensures var rec := Record(Some(Candidates(env)), Some(env.dirCount));
      Outcome(Loaded(env), Candidates(env), Some(env.dirCount), [rec, rec, rec], [])
  {
    var checked := AfterCheckCache(env, Fresh());
    assert checked.cache.plugins == Some(Candidates(env)) && checked.count.Some?;
    DiffKeySelf(Candidates(env));
  }

  /**
   * A stored option whose plugins' cardinality differs from its count is
   * thrown away before `$cache` is assigned, so the load behaves as a first
   * load: every plugin's activation hook fires again.
   */
  lemma CardinalityMismatchActsAsFirstLoad(env: Env)
    requires env.stored.Some? && StoredIsStale(env.stored)
    ensures Loaded(env) == Loaded(env.(stored := None))
  {
  }

  /**
   * A stored option that passes check_cache, whose files all exist and whose
   * count is the scanned directory count, is used as it is: nothing is
   * recomputed, written or fired, and its plugins are included.
   */
  lemma SteadyLoad(env: Env, p: PluginMap)
    requires env.stored == Some(Record(Some(p), Some(env.dirCount)))
    requires |p| == env.dirCount && AllFilesExist(env, p)
    ensures Outcome(Loaded(env), p, Some(env.dirCount), [], [])
    ensures Loaded(env).count.None? && Loaded(env).activated.None?
  {
  }

  /**
   * A new plugin folder between loads: the scanned count differs from the
   * stored one, so count_plugins recomputes once, and exactly the plugins the
   * stored option did not list fire their hooks.
   */
  lemma DirectoryCountChanged(env: Env, p: PluginMap, c: int)
    requires env.stored == Some(Record(Some(p), Some(c)))
    requires |p| == c && c != env.dirCount && AllFilesExist(env, p)
    ensures var rec := Record(Some(Candidates(env)), Some(env.dirCount));
      Outcome(Loaded(env), Candidates(env), Some(env.dirCount), [rec], DiffKey(Candidates(env), p))
  {
  }

  /**
   * A stored plugin whose file is gone, when the directory count changed too:
   * validate_plugins recomputes once (re-entering through count_plugins), the
   * missing plugin is no longer cached, and only plugins new against the
   * stored option fire.
   */
  lemma MissingFileCountChanged(env: Env, p: PluginMap, c: int, gone: Entry)
    requires env.stored == Some(Record(Some(p), Some(c)))
    requires |p| == c && c != env.dirCount
    requires gone in p && gone.file !in env.files && AllFilesExist(env, Candidates(env))
    ensures var rec := Record(Some(Candidates(env)), Some(env.dirCount));
      Outcome(Loaded(env), Candidates(env), Some(env.dirCount), [rec, rec], DiffKey(Candidates(env), p))
    ensures gone.file !in Keys(Candidates(env))
  {
  }

  /**
   * A stored plugin whose file is gone while the directory count is
   * unchanged: validate_plugins' recompute stores a null count, so the
   * count_plugins call of load_plugins recomputes a second time against the
   * cache just built and overwrites `$activated` with nothing. No hook fires,
   * even for plugins the stored option did not list.
   */
  lemma MissingFileSameCount(env: Env, p: PluginMap, gone: Entry)
    requires env.stored == Some(Record(Some(p), Some(env.dirCount)))
    requires |p| == env.dirCount
    requires gone in p && gone.file !in env.files && AllFilesExist(env, Candidates(env))
    ensures var plugins := Candidates(env);
      Outcome(Loaded(env), plugins, Some(env.dirCount),
              [Record(Some(plugins), None), Record(Some(plugins), Some(env.dirCount))], [])
    ensures gone.file !in Keys(Candidates(env))
  {
  }

  /**
   * The load after a first load, in the same environment: quiet when the
   * number of managed plugins equals the number of plugin folders; otherwise
   * the stored option fails check_cache and every hook fires again.
   */
  lemma SecondLoad(env: Env)
    requires env.stored.None? && AllFilesExist(env, Candidates(env))
    ensures var first := Loaded(env);
      var second := Loaded(env.(stored := Some(first.written[|first.written| - 1])));
      && second.cache == first.cache
      && second.fired == if |Candidates(env)| == env.dirCount then [] else HookNames(Candidates(env))
  {
  }

  // ---------------------------------------------------------------------------
  // Admin listing

  /** Outside the must-use list of the plugins screen, or without the capability, nothing happens. */
  lemma ShowInAdminPassesThrough(env: Env, s: State, show: bool, pluginType: string)
    requires !ShowsAutoloaded(env, pluginType)
    ensures AfterShowInAdmin(env, s, show, pluginType) == (s, show)
  {
  }

  /**
   * On the must-use list the cache is recomputed regardless of freshness, the
   * listing holds every must-use plugin's headers and every managed plugin's
   * marked headers, no header bag twice, and the filter returns false.
   */
  lemma ShowInAdminLists(env: Env, s: State, show: bool)
    requires ShowsAutoloaded(env, "mustuse")
    requires DistinctKeys(env.autoPlugins) && DistinctKeys(env.muPlugins)
    ensures var (t, r) := AfterShowInAdmin(env, s, show, "mustuse");
      && !r
      && t.cache.plugins == Some(Candidates(env))
      && t.listing.Some?
      && (forall e :: e in env.muPlugins ==> e.info in InfoSet(t.listing.value))
      && (forall e :: e in Candidates(env) ==> Decorated(e.info) in InfoSet(t.listing.value))
      && DistinctInfos(t.listing.value)
  {
    ListingContents(env.autoPlugins, env.muPlugins);
  }

  /**
   * Opening the must-use list after a quiet load stores a null count, because
   * the count field was never set and the scan agrees with the cache. The next
   * load therefore recomputes once more, against the plugins the admin visit
   * stored, and fires nothing. show_in_admin computed `$activated` but never
   * fires hooks, so the next load does not fire the hook of a plugin added
   * before the visit either.
   */
  lemma AdminAfterSteadyLoad(env: Env, p: PluginMap)
    requires env.stored == Some(Record(Some(p), Some(env.dirCount)))
    requires |p| == env.dirCount && AllFilesExist(env, p) && AllFilesExist(env, Candidates(env))
    requires ShowsAutoloaded(env, "mustuse")
    ensures var (t, _) := AfterShowInAdmin(env, Loaded(env), true, "mustuse");
      var plugins := Candidates(env);
      && t.written == [Record(Some(plugins), None)]
      && Outcome(Loaded(env.(stored := Some(t.written[0]))), plugins, Some(env.dirCount),
                 [Record(Some(plugins), Some(env.dirCount))], [])
  {
    SteadyLoad(env, p);
    var plugins := Candidates(env);
    var rec := Record(Some(plugins), None);
    NullCountLoad(env.(stored := Some(rec)), plugins);
  }

  /**
   * A stored option with plugins but a null count passes check_cache; the
   * count_plugins call then recomputes against those plugins.
   */
  lemma NullCountLoad(env: Env, p: PluginMap)
    requires env.stored == Some(Record(Some(p), None)) && AllFilesExist(env, p)
    ensures var rec := Record(Some(Candidates(env)), Some(env.dirCount));
      Outcome(Loaded(env), Candidates(env), Some(env.dirCount), [rec], DiffKey(Candidates(env), p))
  {
    var checked := AfterCheckCache(env, Fresh());
    assert checked == Fresh().(cache := Record(Some(p), None));
    assert AfterValidatePlugins(env, checked) == checked;
    var counted := AfterCountPlugins(env, checked).0;
    assert counted == AfterUpdateCache(env, checked.(count := Some(env.dirCount)));
  }
}
