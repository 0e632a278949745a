/**
 * The `Autoloader` class of src/Autoloader.php: its fields, updated in
 * place by its methods, and the environment it reads. Every WordPress or
 * filesystem call is a read of `env`; every write of the site option, every
 * include and every fired hook is appended to a log field.
 */
module MuAutoloader {
  import opened Wrappers
  import opened PluginMaps
  import opened Reconcile

  class Autoloader {
    /** What the host answers during this request. */
    const env: Env

    var cache: Record
    var autoPlugins: Option<PluginMap>
    var muPlugins: Option<PluginMap>
    var count: Option<int>
    var activated: Option<PluginMap>

    /** update_site_option('wps_autoloader', ...) calls, in order. */
    var written: seq<Record>
    /** include_once calls, by plugin file, in order. */
    var included: seq<string>
    /** do_action calls, in order. */
    var fired: seq<string>
    /** The value assigned to `$GLOBALS['plugins']['mustuse']`, if any. */
    var listing: Option<PluginMap>

    function View(): State
      reads this
    {
      State(cache, autoPlugins, muPlugins, count, activated, written, included, fired, listing)
    }

    /** The singleton's construction: all fields unset, then load_plugins. */
    constructor (env: Env)
      ensures this.env == env
      ensures View() == Loaded(env)
    {
      this.env := env;
      cache := Unset;
      autoPlugins := None;
      muPlugins := None;
      count := None;
      activated := None;
      written := [];
      included := [];
      fired := [];
      listing := None;
      new;
      LoadPlugins();
    }

    /** check_cache, validate_plugins, count_plugins, the includes, then the hooks. */
    method LoadPlugins()
      modifies this
      ensures View() == AfterLoadPlugins(env, old(View()))
    {
      CheckCache();
      ghost var stoppedAt := ValidatePlugins();
      var ignored := CountPlugins();
      var plugins := cache.plugins.GetOr([]);
      included := included + Keys(plugins);
      PluginHooks();
    }

    /** The `show_advanced_plugins` filter. */
    method ShowInAdmin(show: bool, pluginType: string) returns (r: bool)
      modifies this
      ensures (View(), r) == AfterShowInAdmin(env, old(View()), show, pluginType)
      ensures !ShowsAutoloaded(env, pluginType) ==> r == show && View() == old(View())
      ensures ShowsAutoloaded(env, pluginType) ==>
        && !r
        && cache.plugins == Some(Candidates(env))
        && autoPlugins == Some(Decorate(env.autoPlugins))
        && listing == Some(Listing(env.autoPlugins, env.muPlugins))
    {
      var current := if env.multisite then "plugins-network" else "plugins";
      if env.screenBase != Some(current) || pluginType != "mustuse" || !env.canActivatePlugins {
        return show;
      }
      UpdateCache();
      autoPlugins := Some(Decorate(autoPlugins.value));
      listing := Some(Unique(Merge(autoPlugins.value, muPlugins.value)));
      return false;
    }

    /** Takes the stored option as the cache, or recomputes when it is absent or inconsistent. */
    method CheckCache()
      modifies this
      ensures View() == AfterCheckCache(env, old(View()))
      ensures StoredIsStale(env.stored) ==> cache.plugins == Some(Candidates(env))
      ensures !StoredIsStale(env.stored) ==> View() == old(View()).(cache := env.stored.value)
    {
      var stored := env.stored;
      if stored.None? || (stored.value.plugins.Some? && stored.value.count.Some? && |stored.value.plugins.value| != stored.value.count.value) {
        UpdateCache();
        return;
      }
      cache := stored.value;
    }

    /**
     * Recomputes the cache and the activation delta, and writes the option.
     * It calls CountPlugins, which may call it back once: by then the count
     * field is set, so the nested CountPlugins returns at once.
     */
    method UpdateCache()
      modifies this
      decreases if count.None? then 1 else 0, 1
      ensures View() == AfterUpdateCache(env, old(View()))
      ensures cache.plugins == Some(Candidates(env)) && written[|written| - 1] == cache
      ensures activated == Some(Delta(old(cache).plugins, Candidates(env)))
      ensures written == old(written) + (if Reenters(env, old(View())) then [cache, cache] else [cache])
    {
      autoPlugins := Some(env.autoPlugins);
      muPlugins := Some(env.muPlugins);
      var plugins := DiffKey(env.autoPlugins, env.muPlugins);
      var rebuild := cache.plugins.None?;
      activated := Some(if rebuild then plugins else DiffKey(plugins, cache.plugins.value));
      var newCount := CountPlugins();
      cache := Record(Some(plugins), newCount);
      written := written + [cache];
    }

    /**
     * Checks the cached plugin files in order and recomputes once, at the
     * first missing one, then stops; `stoppedAt` is that file's position.
     */
    method ValidatePlugins() returns (ghost stoppedAt: Option<nat>)
      modifies this
      ensures View() == AfterValidatePlugins(env, old(View()))
      ensures var plugins := old(cache).plugins.GetOr([]);
        match stoppedAt
        case None => AllFilesExist(env, plugins)
        case Some(k) =>
          && k < |plugins|
          && plugins[k].file !in env.files
          && forall j :: 0 <= j < k ==> plugins[j].file in env.files
    {
      var plugins := cache.plugins.GetOr([]);
      stoppedAt := None;
      var i := 0;
      while i < |plugins|
        invariant 0 <= i <= |plugins|
        invariant View() == old(View())
        invariant forall j :: 0 <= j < i ==> plugins[j].file in env.files
      {
        if plugins[i].file !in env.files {
          UpdateCache();
          stoppedAt := Some(i);
          break;
        }
        i := i + 1;
      }
    }

    /** Fires `activate_<file>` for every plugin of the delta, in order, when update_cache ran. */
    method PluginHooks()
      modifies this
      ensures View() == AfterPluginHooks(old(View()))
      ensures old(activated).None? ==> fired == old(fired)
      ensures old(activated).Some? ==> fired == old(fired) + HookNames(old(activated).value)
    {
      if activated.None? {
        return;
      }
      var plugins := activated.value;
      var i := 0;
      while i < |plugins|
        invariant 0 <= i <= |plugins|
        invariant View() == old(View()).(fired := old(fired) + HookNames(plugins[..i]))
      {
        assert HookNames(plugins[..i + 1]) == HookNames(plugins[..i]) + [HookName(plugins[i].file)];
        fired := fired + [HookName(plugins[i].file)];
        i := i + 1;
      }
      assert plugins[..i] == plugins;
    }

    /**
     * The number of plugin folders, scanned once per instance. When no count
     * is cached or the scan differs from it, the count field is set and the
     * cache recomputed; when they agree the field stays unset and the result
     * is None, PHP's null.
     */
    method CountPlugins() returns (r: Option<int>)
      modifies this
      decreases if count.None? then 1 else 0, 0
      ensures (View(), r) == AfterCountPlugins(env, old(View()))
      ensures old(count).Some? ==> r == old(count) && View() == old(View())
      ensures old(count).None? && !ScanDisagrees(env, old(cache)) ==> r.None? && View() == old(View())
      ensures old(count).None? && ScanDisagrees(env, old(cache)) ==> r == count == Some(env.dirCount)
    {
      if count.Some? {
        return count;
      }
      var scanned := env.dirCount;
      if cache.count.None? || scanned != cache.count.value {
        count := Some(scanned);
        UpdateCache();
      }
      return count;
    }
  }
}
