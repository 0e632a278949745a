/**
 * Three load cycles on a concrete mu-plugins directory: a first load with
 * two plugin folders, the load after one of them is deleted, and the load
 * after a third folder appears.
 */
module Scenarios {
  import opened Wrappers
  import opened PluginMaps
  import opened Reconcile

  const A := Entry("a/a.php", map["Name" := "A"])
  const B := Entry("b/b.php", map["Name" := "B"])
  const C := Entry("c/c.php", map["Name" := "C"])

  function Site(plugins: PluginMap, files: set<string>, dirs: nat, stored: Option<Record>): Env {
    Env(plugins, [], files, dirs, stored, None, false, false)
  }

  /** Nothing stored: both plugins are cached, the count is 2, and both activation hooks fire. */
  lemma FirstLoadOfTwo()
    ensures var t := Loaded(Site([A, B], {A.file, B.file}, 2, None));
      && t.cache == Record(Some([A, B]), Some(2))
      && t.included == ["a/a.php", "b/b.php"]
      && t.fired == [HookName("a/a.php"), HookName("b/b.php")]
  {
    var env := Site([A, B], {A.file, B.file}, 2, None);
    DiffKeyNone(env.autoPlugins, env.muPlugins);
    FirstLoad(env);
    assert HookNames([A, B]) == [HookName(A.file), HookName(B.file)];
    assert Keys([A, B]) == [A.file, B.file];
  }

  /** a/ is deleted: the missing file forces a recompute; b/b.php alone is cached and no hook fires. */
  lemma LoadAfterDeletion()
    ensures var t := Loaded(Site([B], {B.file}, 1, Some(Record(Some([A, B]), Some(2)))));
      && t.cache == Record(Some([B]), Some(1))
      && t.fired == []
  {
    var env := Site([B], {B.file}, 1, Some(Record(Some([A, B]), Some(2))));
    DiffKeyNone(env.autoPlugins, env.muPlugins);
    MissingFileCountChanged(env, [A, B], 2, A);
    assert DiffKey([B], [A, B]) == [];
  }

  /** c/ appears: the folder count changes and only c/c.php's hook fires. */
  lemma LoadAfterAddition()
    ensures var t := Loaded(Site([A, B, C], {A.file, B.file, C.file}, 3, Some(Record(Some([A, B]), Some(2)))));
      && t.cache == Record(Some([A, B, C]), Some(3))
      && t.fired == [HookName("c/c.php")]
  {
    var env := Site([A, B, C], {A.file, B.file, C.file}, 3, Some(Record(Some([A, B]), Some(2))));
    DiffKeyNone(env.autoPlugins, env.muPlugins);
    DirectoryCountChanged(env, [A, B], 2);
    NewPluginOnly();
  }

  lemma NewPluginOnly()
    ensures DiffKey([A, B, C], [A, B]) == [C]
  {
    assert Keys([A, B]) == [A.file, B.file];
    assert [A, B, C][1..] == [B, C] && [B, C][1..] == [C];
    assert DiffKey([C], [A, B]) == [C];
  }
}
