# Mu-plugins autoloader, modelled in Dafny

This project models the `Autoloader` class of the WordPress must-use-plugin
autoloader (`src/Autoloader.php`). On every request the autoloader:

- reads its cached snapshot `{plugins, count}` from the `wps_autoloader` site option;
- decides whether the snapshot is stale. There are three signals: the
  cardinality of the stored plugins differs from the stored count, a cached
  plugin file is missing, or the scanned number of top-level plugin folders
  differs from the stored count;
- recomputes the plugins as `array_diff_key(autoloaded plugins, must-use plugins)`
  when it is stale, and computes the newly activated plugins against the
  previous snapshot;
- includes every cached plugin and fires one `activate_<file>` hook per newly
  activated plugin.

The `show_advanced_plugins` filter (`show_in_admin`) recomputes the cache,
marks every autoloaded plugin's name with `" *"`, and puts the merged,
de-duplicated list in the must-use listing.

Files:

- `wrappers.dfy`: `Option`, standing for a PHP value that may be unset or null.
- `plugin_maps.dfy` (module `PluginMaps`): ordered PHP arrays keyed by plugin
  file, as sequences of entries. Also the array functions the class uses:
  `array_keys`, `array_diff_key`, `array_merge`, `array_unique` and the name marking.
- `reconcile.dfy` (module `Reconcile`): the environment, the site-option
  record and the object's state as values. Each method gets a closed-form
  function `After...` giving the state it leaves behind. The lemmas are about
  single recomputes, whole load cycles and admin requests.
- `autoloader.dfy` (module `MuAutoloader`): the class itself. Its fields are
  updated in place by methods that follow the PHP code. `UpdateCache` and
  `CountPlugins` call each other. Both carry a `decreases` clause, based on
  whether the count field is set, and that clause proves the re-entrancy
  terminates. Every method is proved to end in the state its `After...` function gives.
- `scenarios.dfy` (module `Scenarios`): three concrete load cycles (first
  load of two plugins, a deletion, an addition).

The environment is one record, `Reconcile.Env`. It holds the answers of
`get_plugins`, `get_mu_plugins`, `file_exists`, `glob`, `get_site_option`,
`get_current_screen`, `is_multisite` and `current_user_can`. These answers
are fixed for one request. Effects go to log fields instead:
`update_site_option` to `written`, `include_once` to `included`, `do_action`
to `fired`, and the assignment to `$GLOBALS['plugins']['mustuse']` to
`listing`. Each call of `update_cache` writes the option exactly once, so
`written` also counts how many times `update_cache` ran.

## Behaviour of the code as written

The model follows the code. Where the code's behaviour is surprising, the
following lemmas prove it:

- The stored count is the number of plugin folders, not the number of
  plugins. So `|plugins| == count` is not an invariant. When the two differ,
  `check_cache` recomputes on every load. It does so before `$cache` is
  assigned, so every load counts as a first run and every activation hook
  fires again (`CardinalityMismatchActsAsFirstLoad`, `SecondLoad`).
- The first load writes the option twice: `update_cache` re-enters itself
  once through `count_plugins` (`FirstLoad`).
- `count_plugins` returns null when the scan agrees with the cached count,
  so `update_cache` can store a null count. A later `count_plugins` call then
  recomputes again, against the cache just built, and overwrites
  `$activated` with nothing. A missing file with an unchanged folder count
  therefore fires no hooks, even for new plugins (`MissingFileSameCount`).
  Opening the must-use admin list after a quiet load stores a null count the
  same way (`AdminAfterSteadyLoad`).
- `show_in_admin` recomputes the cache and sets `$activated`, but never calls
  `plugin_hooks`. Suppose a plugin appears while the number of plugin folders
  stays the same, for example a second plugin file in an existing folder. A
  request that opens the must-use list then stores that plugin in the option,
  so the next load finds nothing new and does not fire its activation hook
  (`AdminAfterSteadyLoad`). Whether a later load fires it depends on the
  stored count: the load after that recomputes from scratch and fires every
  hook if the plugins now outnumber the folders (`CardinalityMismatchActsAsFirstLoad`).

## Model

| member | source | states |
|---|---|---|
| `PluginMaps.Keys` | src/Autoloader.php:78 | array_keys gives one key per element, in order: the i-th key is the i-th element's plugin file |
| `PluginMaps.HookNames` | src/Autoloader.php:156-157 | one hook per delta entry, in order: the i-th is `activate_` followed by the i-th plugin file |
| `PluginMaps.DiffKey` | src/Autoloader.php:138 | array_diff_key keeps exactly the elements of the first array whose key is not a key of the second, in the first array's order |
| `PluginMaps.DiffKeySelf` | src/Autoloader.php:140 | removing an array's own keys from it leaves nothing: the delta of a recompute against an identical cache is empty |
| `PluginMaps.Put` | src/Autoloader.php:108 | one step of array_merge: an existing key keeps its position, a new key is appended; the new value is found under that key and every other key keeps its value |
| `PluginMaps.Merge` | src/Autoloader.php:108 | the keys of array_merge's result are exactly the keys of either array |
| `PluginMaps.MergeEntries` | src/Autoloader.php:108 | for arrays without repeated keys, every element of the merge is an element of the second array, or one of the first whose key the second lacks |
| `PluginMaps.MergeKeys` | src/Autoloader.php:108 | array_merge keeps the first array's keys in place and appends the second array's new keys in their order |
| `PluginMaps.MergeLookup` | src/Autoloader.php:108 | in array_merge the second array's value wins for every key it has; other keys keep the first array's value |
| `PluginMaps.Unique` | src/Autoloader.php:108 | array_unique keeps a subsequence with the same set of values, no value twice, and the first element of each value |
| `PluginMaps.Decorated` | src/Autoloader.php:103 | the marked headers keep every header except Name, and Name becomes the old name (empty when missing) followed by " *" |
| `PluginMaps.Decorate` | src/Autoloader.php:102-106 | the array_map keeps the keys and their order and marks every plugin's headers |
| `PluginMaps.ListingContents` | src/Autoloader.php:108 | the must-use listing holds every must-use plugin's headers and the marked headers of every unshadowed autoloaded plugin, none twice |
| `PluginMaps.Listing` | src/Autoloader.php:108 | every plugin in the must-use listing is an autoloaded or a must-use plugin, and no header bag occurs in it twice |
| `PluginMaps.ListingOnly` | src/Autoloader.php:102-108 | nothing else is in the listing: each element is a must-use plugin, or an autoloaded plugin no must-use plugin shadows, with its Name marked |
| `Reconcile.Candidates` | src/Autoloader.php:136-138 | the managed plugins are exactly the autoloaded plugins whose key is not a must-use plugin's key, in their order |
| `Reconcile.Delta` | src/Autoloader.php:139-140 | with no plugins array in the cache the delta is all new plugins; otherwise exactly the new plugins whose keys the cache lacks, in order |
| `Reconcile.UpdateCacheUnfolds` | src/Autoloader.php:141 | the closed form of update_cache satisfies the source's equations: field updates, then count_plugins, then the cache and write; the nested count_plugins returns at once |
| `Reconcile.UpdateCacheSnapshot` | src/Autoloader.php:136-143 | after update_cache the cache holds the autoloaded plugins not among the must-use plugins, in order; the last write is that cache; one write, or two when re-entered |
| `Reconcile.UpdateCacheDelta` | src/Autoloader.php:139-140 | `activated` is the whole new map on a rebuild and otherwise exactly the new entries absent from the previous cached plugins |
| `Reconcile.RecomputeTwice` | src/Autoloader.php:133-144 | two recomputes in an unchanged environment give the same plugins and the second finds nothing activated; the stored record changes only if the first stored a null count |
| `Reconcile.CountPluginsCases` | src/Autoloader.php:181-194 | a set count is returned without rescanning; an unset one is set and followed by exactly one recompute if the scan disagrees, else left unset and returned as null |
| `Reconcile.FirstLoad` | src/Autoloader.php:71-81 | with no stored option, and every managed plugin's file present under WPMU_PLUGIN_DIR, the load caches all managed plugins with the folder count, writes the option twice, includes every plugin and fires one hook for each, in order |
| `Reconcile.FirstLoadMissingFile` | src/Autoloader.php:164-171 | with no stored option and a managed plugin whose file is not found, the load writes the option three times and fires no hook: validate_plugins recomputes against the cache just built |
| `Reconcile.CardinalityMismatchActsAsFirstLoad` | src/Autoloader.php:117-125 | a stored option whose plugins' cardinality differs from its count leads to exactly the same load as no stored option |
| `Reconcile.SteadyLoad` | src/Autoloader.php:116-126 | a consistent stored option whose files exist and whose count matches the scan is used unchanged: no write, no hook, its plugins included |
| `Reconcile.DirectoryCountChanged` | src/Autoloader.php:186-191 | for a stored option that passes check_cache (its plugins are as many as its count) and whose files all exist, a changed folder count makes count_plugins recompute once; exactly the plugins the stored option lacked fire |
| `Reconcile.MissingFileCountChanged` | src/Autoloader.php:164-171 | for a stored option that passes check_cache (its plugins are as many as its count), and with every managed plugin's file present under WPMU_PLUGIN_DIR, a missing cached file forces a recompute that drops that file; with a changed folder count only plugins new against the stored option fire |
| `Reconcile.MissingFileSameCount` | src/Autoloader.php:188-193 | for a stored option that passes check_cache with the scanned folder count as its count, and with every managed plugin's file present under WPMU_PLUGIN_DIR, the recompute stores a null count, the later count_plugins recomputes again, and no hook fires |
| `Reconcile.NullCountLoad` | src/Autoloader.php:188-190 | a stored option with a null count whose files all exist passes check_cache and validate_plugins, and count_plugins recomputes once against its plugins |
| `Reconcile.SecondLoad` | src/Autoloader.php:119 | with every managed plugin's file present under WPMU_PLUGIN_DIR, the load after a first load keeps the same cache and is quiet exactly when managed plugins and plugin folders are equally many; otherwise every hook fires again |
| `Reconcile.ShowInAdminPassesThrough` | src/Autoloader.php:96-98 | off the plugins screen, off the must-use list, or without the capability, show_in_admin returns `$show` and changes nothing |
| `Reconcile.ShowInAdminLists` | src/Autoloader.php:99-110 | on the must-use list show_in_admin recomputes, puts in the listing every must-use plugin's headers and every managed plugin's marked headers, no header bag twice, and returns false |
| `Reconcile.AdminAfterSteadyLoad` | src/Autoloader.php:100 | for a stored option that passes check_cache and validate_plugins with the scanned folder count, and with every managed plugin's file present under WPMU_PLUGIN_DIR, opening the must-use list after a quiet load writes a null count; the next load recomputes once and fires nothing, even for managed plugins the stored option lacked |
| `Scenarios.FirstLoadOfTwo` | src/Autoloader.php:71-81 | two plugin folders, nothing stored: both plugins cached with count 2, both included, both hooks fired |
| `Scenarios.LoadAfterDeletion` | src/Autoloader.php:164-171 | after deleting a/, only b/b.php is cached with count 1 and no hook fires |
| `Scenarios.LoadAfterAddition` | src/Autoloader.php:186-191 | after adding c/, all three are cached with count 3 and only c/c.php's hook fires |
| `MuAutoloader.Autoloader.constructor` | src/Autoloader.php:58-66 | constructing the instance runs load_plugins from all-unset fields |
| `MuAutoloader.Autoloader.LoadPlugins` | src/Autoloader.php:71-81 | check_cache, validate_plugins, count_plugins, the includes of the cached plugin keys in order, then the hooks |
| `MuAutoloader.Autoloader.ShowInAdmin` | src/Autoloader.php:92-111 | guard failing: returns `$show`, no change; guard passing: cache recomputed, auto plugins marked, listing set to the de-duplicated merge, returns false |
| `MuAutoloader.Autoloader.CheckCache` | src/Autoloader.php:116-126 | recomputes when the option is absent or both fields are present and disagree; otherwise the cache becomes the stored value unchanged |
| `MuAutoloader.Autoloader.UpdateCache` | src/Autoloader.php:133-144 | caches the recomputed plugins, sets `activated` to the delta against the entry cache, writes that cache once or (re-entered) twice; terminates by its decreases clause |
| `MuAutoloader.Autoloader.ValidatePlugins` | src/Autoloader.php:164-171 | changes nothing if every cached file exists; otherwise recomputes once at the first missing file and stops |
| `MuAutoloader.Autoloader.PluginHooks` | src/Autoloader.php:151-159 | fires nothing when `activated` is unset; otherwise one `activate_<file>` per delta entry, in order |
| `MuAutoloader.Autoloader.CountPlugins` | src/Autoloader.php:181-194 | returns a set count without rescanning; sets it and recomputes only when no cached count exists or the scan differs; otherwise returns null |

## Left out

- `include_once` of each plugin file and `require_once` of `plugin.php` execute code. The model records each include in the `included` log and leaves `require_once` out.
- WordPress and filesystem calls (`get_site_option`, `update_site_option`, `get_plugins`, `get_mu_plugins`, `file_exists`, `glob`, `get_current_screen`, `is_multisite`, `current_user_can`, `do_action`) are reads of the fixed `Env` record or appends to log fields. Their internals, and any change to their answers during a request, are not modelled.
- `get_plugins` scans the folder that `relative_path` (`'/../' . basename(__DIR__)`, src/Autoloader.php:59) names, relative to the plugins directory. `validate_plugins` checks files under `WPMU_PLUGIN_DIR` (src/Autoloader.php:166). Most load lemmas assume, as `AllFilesExist(env, Candidates(env))`, that every managed plugin passes `file_exists`, which holds when the two name the same folder. Without it, the cache keeps listing the unreachable file, so `validate_plugins` recomputes on every load. The first load then recomputes against the cache it has just built and fires no activation hook (`FirstLoadMissingFile`). Later loads without the assumption are not characterised.
- The `Singleton` base class, the `add_filter` registration, and the `ABSPATH`, `class_exists` and `is_blog_installed` guards are host bootstrap. `relative_path` is folded into `Env.autoPlugins`.
- `array_unique(..., SORT_REGULAR)` uses PHP's loose comparison of nested arrays. The model uses value equality of header maps instead.
- `array_merge` renumbers integer-like keys. Plugin file keys always end in `.php`, so every key is treated as a string key.
- A stored option is modelled as two optional fields. Other shapes are not modelled: a non-array option, a non-array `plugins` field, or a non-integer `count`.
- When the cache has no `plugins` field at include time, PHP 7 warns and PHP 8 throws a TypeError. The model simply includes nothing.
- Concurrent requests racing on the site option are out of scope; the code has no locking.
- How WordPress renders the must-use listing, and what it does with the filter's return value, is not part of this model.
