/**
 * Ordered PHP arrays keyed by plugin file, and the array functions the
 * autoloader applies to them: array_keys, array_diff_key, array_merge,
 * array_unique and the array_map that marks display names.
 *
 * A PHP array is modelled as a sequence of entries in insertion order.
 * PHP never repeats a key in an array; where a property depends on that,
 * it is stated with `DistinctKeys`.
 */
module PluginMaps {
  import opened Wrappers

  /** A plugin's header bag (`Name`, `Version`, ...), as get_plugin_data returns it. */
  type Headers = map<string, string>

  /** One element of an array keyed by a plugin file path relative to the mu-plugins directory. */
  datatype Entry = Entry(file: string, info: Headers)

  /** A PHP array from plugin file to headers. */
  type PluginMap = seq<Entry>

  /** array_keys: the keys, in order. */
  function Keys(m: PluginMap): (ks: seq<string>)
    ensures |ks| == |m|
    ensures forall i :: 0 <= i < |m| ==> ks[i] == m[i].file
  {
    if m == [] then [] else [m[0].file] + Keys(m[1..])
  }

  /** The key of every element is among the array's keys. */
  lemma KeysMembers(m: PluginMap)
    ensures forall e :: e in m ==> e.file in Keys(m)
  {
    forall e | e in m
      ensures e.file in Keys(m)
    {
      var i :| 0 <= i < |m| && m[i] == e;
      assert Keys(m)[i] == e.file;
    }
  }

  ghost predicate DistinctKeys(m: PluginMap) {
    forall i, j :: 0 <= i < j < |m| ==> m[i].file != m[j].file
  }

  /** `$m[$k]`, or None when `$k` is not a key of `$m`. */
  function Lookup(m: PluginMap, k: string): Option<Headers> {
    if m == [] then None
    else if m[0].file == k then Some(m[0].info)
    else Lookup(m[1..], k)
  }

  /** `r` is `s` with some elements left out, the rest in their order. */
  ghost predicate Subsequence(r: seq<Entry>, s: seq<Entry>)
    decreases |s|
  {
    r == [] || (s != [] && ((r[0] == s[0] && Subsequence(r[1..], s[1..])) || Subsequence(r, s[1..])))
  }

  /** No two elements of `m` carry the same header bag. */
  ghost predicate DistinctInfos(m: PluginMap) {
    forall i, j :: 0 <= i < j < |m| ==> m[i].info != m[j].info
  }

  /** The set of header bags occurring in `m`. */
  function InfoSet(m: PluginMap): set<Headers> {
    set e | e in m :: e.info
  }

  /** The hook fired for a newly activated plugin: `'activate_' . $plugin_file`. */
  function HookName(file: string): string {
    "activate_" + file
  }

  /** The hooks plugin_hooks fires for `m`: one per entry, in order. */
  function HookNames(m: PluginMap): (hs: seq<string>)
    ensures |hs| == |m|
    ensures forall i :: 0 <= i < |m| ==> hs[i] == HookName(m[i].file)
  {
    if m == [] then [] else [HookName(m[0].file)] + HookNames(m[1..])
  }

  lemma KeysLookup(m: PluginMap, k: string)
    ensures k in Keys(m) <==> Lookup(m, k).Some?
    ensures Lookup(m, k).Some? ==> Entry(k, Lookup(m, k).value) in m
  {
    if m != [] {
      KeysLookup(m[1..], k);
    }
  }

  lemma {:induction false} LookupEntry(m: PluginMap, e: Entry)
    requires DistinctKeys(m)
    requires e in m
    ensures Lookup(m, e.file) == Some(e.info)
  {
    if m[0] != e {
      assert e in m[1..];
      LookupEntry(m[1..], e);
    }
  }

  // ---------------------------------------------------------------------------
  // array_diff_key

  /**
   * array_diff_key(a, b): the elements of `a` whose key is not a key of `b`,
   * in `a`'s order, with `a`'s values.
   */
  function DiffKey(a: PluginMap, b: PluginMap): (r: PluginMap)
    ensures forall e :: e in r <==> e in a && e.file !in Keys(b)
    ensures Subsequence(r, a)
  {
    if a == [] then []
    else if a[0].file in Keys(b) then DiffKey(a[1..], b)
    else [a[0]] + DiffKey(a[1..], b)
  }

  /** Removing the keys of an array from itself leaves nothing. */
  lemma DiffKeySelf(a: PluginMap)
    ensures DiffKey(a, a) == []
  {
  }

  /** array_diff_key only looks at which keys the second array has. */
  lemma {:induction false} DiffKeyByKeys(a: PluginMap, b1: PluginMap, b2: PluginMap)
    requires forall e :: e in a ==> (e.file in Keys(b1) <==> e.file in Keys(b2))
    ensures DiffKey(a, b1) == DiffKey(a, b2)
  {
    if a != [] {
      assert a[0] in a;
      DiffKeyByKeys(a[1..], b1, b2);
    }
  }

  /** Removing no keys changes nothing. */
  lemma {:induction false} DiffKeyNone(a: PluginMap, b: PluginMap)
    requires forall e :: e in a ==> e.file !in Keys(b)
    ensures DiffKey(a, b) == a
  {
    if a != [] {
      assert a[0] in a;
      DiffKeyNone(a[1..], b);
      assert a == [a[0]] + a[1..];
    }
  }

  // ---------------------------------------------------------------------------
  // array_merge

  /** `$m[$e->file] = $e->info`: overwrite in place when the key exists, append otherwise. */
  function Put(m: PluginMap, e: Entry): (r: PluginMap)
    ensures Keys(r) == if e.file in Keys(m) then Keys(m) else Keys(m) + [e.file]
    ensures forall k :: Lookup(r, k) == if k == e.file then Some(e.info) else Lookup(m, k)
  {
    if m == [] then [e]
    else if m[0].file == e.file then [e] + m[1..]
    else [m[0]] + Put(m[1..], e)
  }

  /** array_merge(a, b) for string keys: the elements of `b` put into `a` one by one. */
  function Merge(a: PluginMap, b: PluginMap): (r: PluginMap)
    ensures forall k :: k in Keys(r) <==> k in Keys(a) || k in Keys(b)
    decreases |b|
  {
    if b == [] then a
    else
      assert Keys(b) == [b[0].file] + Keys(b[1..]);
      Merge(Put(a, b[0]), b[1..])
  }

  /** Put keeps an array's keys distinct. */
  lemma PutDistinct(m: PluginMap, e: Entry)
    requires DistinctKeys(m)
    ensures DistinctKeys(Put(m, e))
  {
    var r := Put(m, e);
    forall i, j | 0 <= i < j < |r|
      ensures r[i].file != r[j].file
    {
      assert Keys(r)[i] == r[i].file && Keys(r)[j] == r[j].file;
      if j < |m| {
        assert Keys(m)[i] == m[i].file && Keys(m)[j] == m[j].file;
      } else {
        assert Keys(m)[i] == m[i].file;
      }
    }
  }

  /** In an array without repeated keys, Put replaces the element with `e`'s key or appends `e`. */
  lemma {:induction false} PutEntries(m: PluginMap, e: Entry)
    requires DistinctKeys(m)
    ensures forall x :: x in Put(m, e) ==> x == e || (x in m && x.file != e.file)
  {
    if m != [] && m[0].file != e.file {
      PutEntries(m[1..], e);
      assert forall x :: x in Put(m, e) ==> x == m[0] || x in Put(m[1..], e);
    }
  }

  /** Every element of a merge is an element of `b`, or one of `a` whose key `b` lacks. */
  lemma {:induction false} MergeEntries(a: PluginMap, b: PluginMap)
    requires DistinctKeys(a) && DistinctKeys(b)
    ensures forall x :: x in Merge(a, b) ==> x in b || (x in a && x.file !in Keys(b))
    decreases |b|
  {
    if b != [] {
      var a' := Put(a, b[0]);
      PutDistinct(a, b[0]);
      PutEntries(a, b[0]);
      HeadKeyUnique(b);
      MergeEntries(a', b[1..]);
      assert Keys(b) == [b[0].file] + Keys(b[1..]);
    }
  }

  /** No later element of an array shares the first element's key. */
  lemma HeadKeyUnique(b: PluginMap)
    requires b != [] && DistinctKeys(b)
    ensures DistinctKeys(b[1..])
    ensures forall e :: e in b[1..] ==> e.file != b[0].file
  {
    forall e | e in b[1..]
      ensures e.file != b[0].file
    {
      var j :| 0 <= j < |b[1..]| && b[1..][j] == e;
      assert b[j + 1] == e;
    }
  }

  /** The keys of a merge: `a`'s keys where they were, then `b`'s new keys in `b`'s order. */
  lemma {:induction false} MergeKeys(a: PluginMap, b: PluginMap)
    requires DistinctKeys(b)
    ensures Keys(Merge(a, b)) == Keys(a) + Keys(DiffKey(b, a))
    decreases |b|
  {
    if b != [] {
      var a' := Put(a, b[0]);
      HeadKeyUnique(b);
      MergeKeys(a', b[1..]);
      DiffKeyByKeys(b[1..], a', a);
      MergeKeysStep(a, b, DiffKey(b[1..], a));
    }
  }

  lemma MergeKeysStep(a: PluginMap, b: PluginMap, rest: PluginMap)
    requires b != [] && rest == DiffKey(b[1..], a)
    ensures Keys(Put(a, b[0])) + Keys(rest) == Keys(a) + Keys(DiffKey(b, a))
  {
    var e := b[0];
    var ka := Keys(a);
    var kp := Keys(Put(a, e));
    var kr := Keys(rest);
    var d := DiffKey(b, a);
    if e.file in ka {
      assert d == rest;
      assert kp == ka;
    } else {
      assert d == [e] + rest;
      KeysCons(e, rest);
      assert Keys(d) == [e.file] + kr;
      assert kp == ka + [e.file];
      SeqAssoc(ka, [e.file], kr);
    }
  }

  /** Kept apart so that the step above stays within the solver's budget. */
  lemma KeysCons(e: Entry, m: PluginMap)
    ensures Keys([e] + m) == [e.file] + Keys(m)
  {
    assert ([e] + m)[1..] == m;
  }

  lemma SeqAssoc(x: seq<string>, y: seq<string>, z: seq<string>)
    ensures (x + y) + z == x + (y + z)
  {
  }

  /** The values of a merge: `b`'s value wins for every key of `b`. */
  lemma {:induction false} MergeLookup(a: PluginMap, b: PluginMap, k: string)
    requires DistinctKeys(b)
    ensures Lookup(Merge(a, b), k) == if k in Keys(b) then Lookup(b, k) else Lookup(a, k)
    decreases |b|
  {
    if b != [] {
      var a' := Put(a, b[0]);
      MergeLookup(a', b[1..], k);
      assert Merge(a, b) == Merge(a', b[1..]);
      assert Keys(b) == [b[0].file] + Keys(b[1..]);
      if k in Keys(b[1..]) {
        var j :| 0 <= j < |b[1..]| && Keys(b[1..])[j] == k;
        assert b[j + 1].file == k;
        assert Lookup(b, k) == Lookup(b[1..], k);
      } else if k == b[0].file {
        assert Lookup(b, k) == Some(b[0].info);
      } else {
        assert Lookup(a', k) == Lookup(a, k);
      }
    }
  }

  // ---------------------------------------------------------------------------
  // array_unique

  /** Keeps an element only when no earlier element, and nothing in `seen`, has the same value. */
  function Dedup(m: PluginMap, seen: set<Headers>): PluginMap {
    if m == [] then []
    else if m[0].info in seen then Dedup(m[1..], seen)
    else [m[0]] + Dedup(m[1..], seen + {m[0].info})
  }

  lemma {:induction false} DedupMembers(m: PluginMap, seen: set<Headers>)
    ensures Subsequence(Dedup(m, seen), m)
    ensures forall e :: e in Dedup(m, seen) ==> e in m && e.info !in seen
  {
    if m != [] {
      var seen' := if m[0].info in seen then seen else seen + {m[0].info};
      DedupMembers(m[1..], seen');
    }
  }

  lemma {:induction false} DedupInfos(m: PluginMap, seen: set<Headers>)
    ensures InfoSet(Dedup(m, seen)) == InfoSet(m) - seen
  {
    if m != [] {
      var seen' := if m[0].info in seen then seen else seen + {m[0].info};
      DedupInfos(m[1..], seen');
      assert InfoSet(m) == {m[0].info} + InfoSet(m[1..]) by {
        assert m == [m[0]] + m[1..];
      }
      if m[0].info !in seen {
        var r' := Dedup(m[1..], seen');
        assert InfoSet([m[0]] + r') == {m[0].info} + InfoSet(r');
      }
    }
  }

  lemma {:induction false} DedupDistinct(m: PluginMap, seen: set<Headers>)
    ensures DistinctInfos(Dedup(m, seen))
  {
    if m != [] {
      var seen' := if m[0].info in seen then seen else seen + {m[0].info};
      DedupDistinct(m[1..], seen');
      DedupMembers(m[1..], seen');
      if m[0].info !in seen {
        var r' := Dedup(m[1..], seen');
        var r := [m[0]] + r';
        assert seen' == seen + {m[0].info};
        forall i, j | 0 <= i < j < |r|
          ensures r[i].info != r[j].info
        {
          assert r[j] == r'[j - 1];
          assert r'[j - 1] in r';
          if i > 0 {
            assert r[i] == r'[i - 1];
            assert DistinctInfos(r');
          } else {
            assert r[i] == m[0];
            assert r'[j - 1].info !in seen';
          }
        }
      }
    }
  }

  lemma {:induction false} DedupKeepsFirst(m: PluginMap, seen: set<Headers>)
    ensures forall i :: 0 <= i < |m| && m[i].info !in seen && m[i].info !in InfoSet(m[..i]) ==> m[i] in Dedup(m, seen)
  {
    if m != [] {
      var seen' := if m[0].info in seen then seen else seen + {m[0].info};
      DedupKeepsFirst(m[1..], seen');
      forall i | 0 < i < |m| && m[i].info !in seen && m[i].info !in InfoSet(m[..i])
        ensures m[i] in Dedup(m, seen)
      {
        assert m[0] in m[..i];
        assert m[1..][i - 1] == m[i];
        assert m[1..][..i - 1] == m[1..i];
        assert InfoSet(m[1..i]) <= InfoSet(m[..i]) by {
          forall e | e in m[1..i]
            ensures e in m[..i]
          {
            var j :| 1 <= j < i && m[j] == e;
            assert m[..i][j] == e;
          }
        }
      }
    }
  }

  /** array_unique(m, SORT_REGULAR): the first element of each value, in order. */
  function Unique(m: PluginMap): (r: PluginMap)
    ensures Subsequence(r, m)
    ensures InfoSet(r) == InfoSet(m)
    ensures DistinctInfos(r)
    ensures forall i :: 0 <= i < |m| && m[i].info !in InfoSet(m[..i]) ==> m[i] in r
  {
    DedupMembers(m, {});
    DedupInfos(m, {});
    DedupDistinct(m, {});
    DedupKeepsFirst(m, {});
    Dedup(m, {})
  }

  lemma {:induction false} SubsequenceRefl(s: seq<Entry>)
    ensures Subsequence(s, s)
    decreases |s|
  {
    if s != [] {
      SubsequenceRefl(s[1..]);
    }
  }

  lemma {:induction false} SubsequenceMembers(r: seq<Entry>, s: seq<Entry>)
    requires Subsequence(r, s)
    ensures forall e :: e in r ==> e in s
    decreases |s|
  {
    if r != [] {
      if r[0] == s[0] && Subsequence(r[1..], s[1..]) {
        SubsequenceMembers(r[1..], s[1..]);
        assert r == [r[0]] + r[1..];
      } else {
        SubsequenceMembers(r, s[1..]);
      }
    }
  }

  // ---------------------------------------------------------------------------
  // The autoload marker on display names

  /** `$info['Name'] .= ' *'`; a missing Name reads as the empty string. */
  function Decorated(h: Headers): (d: Headers)
    ensures d.Keys == h.Keys + {"Name"}
    ensures forall k :: k in h && k != "Name" ==> d[k] == h[k]
    ensures var name := if "Name" in h then h["Name"] else "";
      |d["Name"]| == |name| + 2 && d["Name"][..|name|] == name && d["Name"][|name|..] == " *"
  {
    h["Name" := (if "Name" in h then h["Name"] else "") + " *"]
  }

  /** array_map over the values: the same keys in the same order, every Name marked. */
  function Decorate(m: PluginMap): (r: PluginMap)
    ensures Keys(r) == Keys(m)
    ensures forall e :: e in m ==> Entry(e.file, Decorated(e.info)) in r
  {
    seq(|m|, i requires 0 <= i < |m| => Entry(m[i].file, Decorated(m[i].info)))
  }

  // ---------------------------------------------------------------------------
  // The must-use listing shown in the admin

  /**
   * array_unique(array_merge(decorated auto plugins, mu plugins), SORT_REGULAR):
   * every plugin in it is an autoloaded or a must-use plugin, and no header
   * bag occurs twice.
   */
  function Listing(auto: PluginMap, mu: PluginMap): (r: PluginMap)
    ensures forall e :: e in r ==> e.file in Keys(auto) || e.file in Keys(mu)
    ensures DistinctInfos(r)
  {
    var merged := Merge(Decorate(auto), mu);
    var r := Unique(merged);
    SubsequenceMembers(r, merged);
    KeysMembers(merged);
    r
  }

  lemma DecorateDistinct(m: PluginMap)
    requires DistinctKeys(m)
    ensures DistinctKeys(Decorate(m))
  {
    var d := Decorate(m);
    forall i, j | 0 <= i < j < |d|
      ensures d[i].file != d[j].file
    {
      assert Keys(d)[i] == Keys(m)[i] && Keys(d)[j] == Keys(m)[j];
    }
  }

  /**
   * Every must-use plugin's headers, and the marked headers of every
   * autoloaded plugin that no must-use plugin shadows, appear in the listing,
   * and no header bag appears in it twice.
   */
  lemma ListingContents(auto: PluginMap, mu: PluginMap)
    requires DistinctKeys(auto) && DistinctKeys(mu)
    ensures forall e :: e in mu ==> e.info in InfoSet(Listing(auto, mu))
    ensures forall e :: e in auto && e.file !in Keys(mu) ==> Decorated(e.info) in InfoSet(Listing(auto, mu))
    ensures DistinctInfos(Listing(auto, mu))
  {
    var d := Decorate(auto);
    var merged := Merge(d, mu);
    DecorateDistinct(auto);
    forall e | e in mu
      ensures e.info in InfoSet(merged)
    {
      LookupEntry(mu, e);
      MergeLookup(d, mu, e.file);
      KeysLookup(merged, e.file);
    }
    forall e | e in auto && e.file !in Keys(mu)
      ensures Decorated(e.info) in InfoSet(merged)
    {
      LookupEntry(d, Entry(e.file, Decorated(e.info)));
      MergeLookup(d, mu, e.file);
      KeysLookup(merged, e.file);
    }
  }

  /**
   * Nothing else is in the listing: each element is a must-use plugin, or an
   * autoloaded plugin that no must-use plugin shadows, with its Name marked.
   */
  lemma ListingOnly(auto: PluginMap, mu: PluginMap)
    requires DistinctKeys(auto) && DistinctKeys(mu)
    ensures forall x :: x in Listing(auto, mu) ==>
      || x in mu
      || exists e :: e in auto && e.file !in Keys(mu) && x == Entry(e.file, Decorated(e.info))
  {
    var d := Decorate(auto);
    var merged := Merge(d, mu);
    DecorateDistinct(auto);
    MergeEntries(d, mu);
    SubsequenceMembers(Listing(auto, mu), merged);
    forall x | x in Listing(auto, mu) && x !in mu
      ensures exists e :: e in auto && e.file !in Keys(mu) && x == Entry(e.file, Decorated(e.info))
    {
      var i :| 0 <= i < |d| && d[i] == x;
      assert auto[i] in auto && x == Entry(auto[i].file, Decorated(auto[i].info));
    }
  }
}
