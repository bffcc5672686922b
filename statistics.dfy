/** FreshDocs/scripts/statistics.ts: count the whitelisted `fresh_types`
    of every `.mdx` file in the six content directories into a record with
    one count per type. */
module Statistics {
  import opened Wrappers
  import opened Seqs
  import opened ContentTree

  /** `FreshType`: the seven recognised values of `fresh_types`. */
  datatype FreshType = Memo | Miss | Viss | Algs | Tabs | Bibs | News

  /** The value a type is written as in front matter and in the output. */
  function Name(t: FreshType): string
  {
    match t
    case Memo => "memo"
    case Miss => "miss"
    case Viss => "viss"
    case Algs => "algs"
    case Tabs => "tabs"
    case Bibs => "bibs"
    case News => "news"
  }

  /** `FRESH_TYPE_WHITELIST`, in its order. */
  const WHITELIST: seq<FreshType> := [Memo, Miss, Viss, Algs, Tabs, Bibs, News]

  /** The whitelist lists each type once and no type is missing from it. */
  lemma WhitelistIsComplete()
    ensures NoDup(WHITELIST) && forall t: FreshType :: t in WHITELIST
    ensures forall i, j :: 0 <= i < j < |WHITELIST| ==> Name(WHITELIST[i]) != Name(WHITELIST[j])
  {
    forall t: FreshType
      ensures t in WHITELIST
    {
      assert t == WHITELIST[0] || t == WHITELIST[1] || t == WHITELIST[2] || t == WHITELIST[3] ||
             t == WHITELIST[4] || t == WHITELIST[5] || t == WHITELIST[6];
    }
  }

  /** `FRESH_TYPE_WHITELIST.includes(value)` for a string value: the type it
      names, if any. */
  function Whitelisted(s: string): (r: Option<FreshType>)
    ensures r.Some? ==> Name(r.value) == s
    ensures r.None? ==> forall t: FreshType :: Name(t) != s
  {
    match s
    case "memo" => Some(Memo)
    case "miss" => Some(Miss)
    case "viss" => Some(Viss)
    case "algs" => Some(Algs)
    case "tabs" => Some(Tabs)
    case "bibs" => Some(Bibs)
    case "news" => Some(News)
    case _ => None
  }

  /** Reading back a name gives the type. */
  lemma WhitelistedName(t: FreshType)
    ensures Whitelisted(Name(t)) == Some(t)
  {
  }

  /** The directories scanned, relative to the site root. */
  const MDX_DIRS: seq<string> := [
    "memo/miscellaneous_recipes",
    "memo/visualization_recipes",
    "memo/algorithm_recipes",
    "memo/table_recipes",
    "memo/references_recipes",
    "news"]

  /** `FreshStats`: one count per whitelisted type. */
  datatype FreshStats = FreshStats(memo: nat, miss: nat, viss: nat, algs: nat, tabs: nat, bibs: nat, news: nat)
  {
    /** The count held for a type. */
    function Field(t: FreshType): nat
    {
      match t
      case Memo => memo
      case Miss => miss
      case Viss => viss
      case Algs => algs
      case Tabs => tabs
      case Bibs => bibs
      case News => news
    }
  }

  const ZERO_STATS: FreshStats := FreshStats(0, 0, 0, 0, 0, 0, 0)

  /** Whether an item is kept by the whitelist filter, and as which type. */
  function KeptItem(item: Item): Option<FreshType>
  {
    if item.Text? then Whitelisted(item.s) else None
  }

  /** The whitelist filter over a list of items, preserving order. */
  function KeptItems(items: seq<Item>): (kept: seq<FreshType>)
    ensures |kept| <= |items|
    ensures forall t :: t in kept <==> Text(Name(t)) in items
  {
    if items == [] then []
    else
      var init, last := items[..|items| - 1], items[|items| - 1];
      var kept := KeptItems(init) + (if KeptItem(last).Some? then [KeptItem(last).value] else []);
      assert forall t :: t in kept <==> Text(Name(t)) in items by {
        assert items == init + [last];
        forall t
          ensures t in kept <==> Text(Name(t)) in items
        {
          WhitelistedName(t);
        }
      }
      kept
  }

  /** `getFreshTypesFromFile`: the whitelisted string items of a
      `fresh_types` list, in order; a value that is not a list gives none. */
  function KeptTypes(field: TypesField): (kept: seq<FreshType>)
    ensures !field.List? ==> kept == []
    ensures forall t :: t in kept <==> field.List? && Text(Name(t)) in field.items
  {
    if field.List? then KeptItems(field.items) else []
  }

  /** Each type is kept as often as the list names it: duplicates within one
      file are all counted. */
  lemma {:induction false} KeptItemsCounts(items: seq<Item>, t: FreshType)
    ensures Count(t, KeptItems(items)) == Count(Text(Name(t)), items)
  {
    if items != [] {
      var init, last := items[..|items| - 1], items[|items| - 1];
      KeptItemsCounts(init, t);
      CountAppend(t, KeptItems(init), if KeptItem(last).Some? then [KeptItem(last).value] else []);
      assert init + [last] == items;
      CountSnoc(Text(Name(t)), init, last);
      WhitelistedName(t);
    }
  }

  /** The filter keeps the list's order: filtering a concatenation is
      concatenating the filtered parts. */
  lemma {:induction false} KeptItemsAppend(a: seq<Item>, b: seq<Item>)
    ensures KeptItems(a + b) == KeptItems(a) + KeptItems(b)
  {
    if b == [] {
      assert a + b == a;
    } else {
      var b', last := b[..|b| - 1], b[|b| - 1];
      assert (a + b)[..|a + b| - 1] == a + b' && (a + b)[|a + b| - 1] == last;
      KeptItemsAppend(a, b');
    }
  }

  /** A single item is kept exactly when it is a whitelisted string. */
  lemma KeptSingleItem(item: Item)
    ensures KeptItems([item]) == if item.Text? && Whitelisted(item.s).Some? then [Whitelisted(item.s).value] else []
  {
    assert [item][..0] == [];
  }

  /** The kept types of a sequence of files, file after file. */
  function KeptOfFiles(files: seq<Entry>): seq<FreshType>
  {
    if files == [] then []
    else KeptOfFiles(files[..|files| - 1]) + KeptTypes(files[|files| - 1].freshTypes)
  }

  /** The kept types of every file scanned in the directories, directory after directory. */
  function KeptIn(tree: Tree, dirs: seq<string>): seq<FreshType>
  {
    if dirs == [] then []
    else KeptIn(tree, dirs[..|dirs| - 1]) + KeptOfFiles(FilesInDir(tree, dirs[|dirs| - 1]))
  }

  /** A file contributes its kept types once per occurrence; a list of files
      contributes the sum of its files. */
  lemma {:induction false} KeptOfFilesAppend(a: seq<Entry>, b: seq<Entry>)
    ensures KeptOfFiles(a + b) == KeptOfFiles(a) + KeptOfFiles(b)
  {
    if b == [] {
      assert a + b == a;
    } else {
      var b', last := b[..|b| - 1], b[|b| - 1];
      assert (a + b)[..|a + b| - 1] == a + b' && (a + b)[|a + b| - 1] == last;
      KeptOfFilesAppend(a, b');
      var here := KeptTypes(last.freshTypes);
      assert KeptOfFiles(a + b) == KeptOfFiles(a + b') + here;
      assert KeptOfFiles(b) == KeptOfFiles(b') + here;
    }
  }

  /** The innermost `freshTypes.forEach`: one map update per kept type. */
  method TallyTypes(counts: map<FreshType, nat>, ghost seen: seq<FreshType>, freshTypes: seq<FreshType>)
    returns (counts': map<FreshType, nat>)
    requires Tallies(counts, seen)
    ensures Tallies(counts', seen + freshTypes)
  {
    counts' := counts;
    assert seen + freshTypes[..0] == seen;
    for l := 0 to |freshTypes|
      invariant Tallies(counts', seen + freshTypes[..l])
    {
      TalliesSnoc(counts', seen + freshTypes[..l], freshTypes[l]);
      counts' := counts'[freshTypes[l] := Get(counts', freshTypes[l]) + 1];
      assert seen + freshTypes[..l + 1] == seen + freshTypes[..l] + [freshTypes[l]];
    }
    assert freshTypes[..|freshTypes|] == freshTypes;
  }

  /** The `files.forEach` of one directory. */
  method TallyFiles(counts: map<FreshType, nat>, ghost seen: seq<FreshType>, files: seq<Entry>)
    returns (counts': map<FreshType, nat>)
    requires Tallies(counts, seen)
    ensures Tallies(counts', seen + KeptOfFiles(files))
  {
    counts' := counts;
    assert seen + KeptOfFiles(files[..0]) == seen;
    for j := 0 to |files|
      invariant Tallies(counts', seen + KeptOfFiles(files[..j]))
    {
      var freshTypes := KeptTypes(files[j].freshTypes);
      counts' := TallyTypes(counts', seen + KeptOfFiles(files[..j]), freshTypes);
      assert files[..j + 1][..j] == files[..j];
      assert seen + KeptOfFiles(files[..j + 1]) == seen + KeptOfFiles(files[..j]) + freshTypes;
    }
    assert files[..|files|] == files;
  }

  /** One more directory appends the kept types of its files. */
  lemma KeptInStep(tree: Tree, dirs: seq<string>, i: nat)
    requires i < |dirs|
    ensures KeptIn(tree, dirs[..i + 1]) == KeptIn(tree, dirs[..i]) + KeptOfFiles(FilesInDir(tree, dirs[i]))
  {
    assert dirs[..i + 1][..i] == dirs[..i];
  }

  /** The object literal `countFreshTypes` returns: each field reads the map
      with a default of 0. */
  function ReadStats(counts: map<FreshType, nat>): (stats: FreshStats)
    ensures forall t :: stats.Field(t) == Get(counts, t)
  {
    var stats := FreshStats(Get(counts, Memo), Get(counts, Miss), Get(counts, Viss),
                            Get(counts, Algs), Get(counts, Tabs), Get(counts, Bibs),
                            Get(counts, News));
    stats
  }

  /** Reading a tally field by field gives the occurrence counts. */
  lemma ReadStatsOfTally(counts: map<FreshType, nat>, s: seq<FreshType>)
    requires Tallies(counts, s)
    ensures forall t :: ReadStats(counts).Field(t) == Count(t, s)
  {
    forall t ensures ReadStats(counts).Field(t) == Count(t, s) {
      TallyGet(counts, s, t);
    }
  }

  /** `countFreshTypes(dirs)`: for each whitelisted type, the number of times
      it occurs in the kept lists of all scanned files, duplicates included. */
  method CountFreshTypes(tree: Tree, dirs: seq<string>) returns (stats: FreshStats)
    ensures forall t :: stats.Field(t) == Count(t, KeptIn(tree, dirs))
  {
    var counts: map<FreshType, nat> := map[];
    ghost var seen: seq<FreshType> := [];
    assert dirs[..0] == [];
    for i := 0 to |dirs|
      invariant seen == KeptIn(tree, dirs[..i])
      invariant Tallies(counts, seen)
    {
      var files := FilesInDir(tree, dirs[i]);
      counts := TallyFiles(counts, seen, files);
      KeptInStep(tree, dirs, i);
      seen := seen + KeptOfFiles(files);
    }
    assert dirs[..|dirs|] == dirs;
    ReadStatsOfTally(counts, seen);
    stats := ReadStats(counts);
  }

  /** The sum of the seven counts. */
  function Total(stats: FreshStats): nat
  {
    stats.memo + stats.miss + stats.viss + stats.algs + stats.tabs + stats.bibs + stats.news
  }

  /** The seven counts of the counting loop add up to the number of
      whitelisted entries across all scanned files. */
  lemma CountsAddUp(stats: FreshStats, kept: seq<FreshType>)
    requires forall t :: stats.Field(t) == Count(t, kept)
    ensures Total(stats) == |kept|
  {
    assert stats.memo == Count(Memo, kept) && stats.miss == Count(Miss, kept);
    assert stats.viss == Count(Viss, kept) && stats.algs == Count(Algs, kept);
    assert stats.tabs == Count(Tabs, kept) && stats.bibs == Count(Bibs, kept);
    assert stats.news == Count(News, kept);
    EveryEntryHasAType(kept);
  }

  /** Every kept entry is one of the seven types, so the seven per-type
      occurrence counts add up to the number of entries. */
  lemma {:induction false} EveryEntryHasAType(kept: seq<FreshType>)
    ensures Count(Memo, kept) + Count(Miss, kept) + Count(Viss, kept) + Count(Algs, kept) +
            Count(Tabs, kept) + Count(Bibs, kept) + Count(News, kept) == |kept|
  {
    if kept != [] {
      var init, last := kept[..|kept| - 1], kept[|kept| - 1];
      EveryEntryHasAType(init);
      var c := Count(Memo, init) + Count(Miss, init) + Count(Viss, init) + Count(Algs, init) +
               Count(Tabs, init) + Count(Bibs, init) + Count(News, init);
      assert c == |init|;
      match last
      case Memo => assert Count(Memo, kept) == Count(Memo, init) + 1;
      case Miss => assert Count(Miss, kept) == Count(Miss, init) + 1;
      case Viss => assert Count(Viss, kept) == Count(Viss, init) + 1;
      case Algs => assert Count(Algs, kept) == Count(Algs, init) + 1;
      case Tabs => assert Count(Tabs, kept) == Count(Tabs, init) + 1;
      case Bibs => assert Count(Bibs, kept) == Count(Bibs, init) + 1;
      case News => assert Count(News, kept) == Count(News, init) + 1;
    }
  }

  /** A record as the JavaScript object it is in the script. */
  function AsObject(stats: FreshStats): (obj: map<string, nat>)
    ensures obj.Keys == set t: FreshType :: Name(t)
    ensures forall t :: obj[Name(t)] == stats.Field(t)
  {
    var obj := map["memo" := stats.memo, "miss" := stats.miss, "viss" := stats.viss, "algs" := stats.algs,
                   "tabs" := stats.tabs, "bibs" := stats.bibs, "news" := stats.news];
    assert obj.Keys == set t: FreshType :: Name(t) by {
      assert "memo" == Name(Memo) && "miss" == Name(Miss) && "viss" == Name(Viss) && "algs" == Name(Algs);
      assert "tabs" == Name(Tabs) && "bibs" == Name(Bibs) && "news" == Name(News);
    }
    obj
  }

  /** Object spread `{...a, ...b}`: the keys of both, the values of `b` where it has them. */
  function Spread(a: map<string, nat>, b: map<string, nat>): (c: map<string, nat>)
    ensures c.Keys == a.Keys + b.Keys
    ensures forall k :: k in b ==> c[k] == b[k]
    ensures forall k :: k in a && k !in b ==> c[k] == a[k]
  {
    a + b
  }

  /** Spreading the counts over the zero record changes nothing: the counts
      already carry all seven keys. */
  lemma ZeroMergeIsIdentity(stats: FreshStats)
    ensures Spread(AsObject(ZERO_STATS), AsObject(stats)) == AsObject(stats)
  {
  }

  /** `generateStatistics()`, without the file written at the end: the
      object that is serialized, with all seven keys, each holding the
      number of times its type occurs in the kept lists. */
  method GenerateStatistics(tree: Tree) returns (statistics: map<string, nat>)
    ensures statistics.Keys == set t: FreshType :: Name(t)
    ensures forall t :: statistics[Name(t)] == Count(t, KeptIn(tree, MDX_DIRS))
  {
    var counted := CountFreshTypes(tree, MDX_DIRS);
    statistics := AsObject(counted);
    statistics := Spread(AsObject(ZERO_STATS), statistics);
  }

  /** A type that no scanned file lists has count 0. */
  lemma UnseenTypeIsZero(stats: FreshStats, kept: seq<FreshType>, t: FreshType)
    requires forall u :: stats.Field(u) == Count(u, kept)
    requires forall i :: 0 <= i < |kept| ==> kept[i] != t
    ensures stats.Field(t) == 0
  {
    assert t !in kept;
  }
}
