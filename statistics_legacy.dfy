/** FreshDocs/scripts/statistics.mjs, the older counter: every value listed
    in `fresh_types` is counted under its own key, without a whitelist, and
    only two directories are scanned. */
module LegacyStatistics {
  import opened Wrappers
  import opened Seqs
  import opened ContentTree

  /** The directories scanned; `memo/references_recipes` is commented out. */
  const MJS_DIRS: seq<string> := ["memo/visualization_recipes", "memo/table_recipes"]

  const REFERENCES_DIR: string := "memo/references_recipes"

  /** The `fresh_types` of a file's front matter (statistics.mjs:26): a
      missing or falsy value becomes the empty list; any other value is
      returned as it is. */
  function GetFreshTypesFromFile(field: TypesField): (r: TypesField)
    ensures !r.Absent?
    ensures field.Absent? ==> r == List([])
    ensures field.List? ==> r == field
    ensures field.Scalar? ==> r.Scalar?
  {
    if field.Absent? then List([]) else field
  }

  /** The object key an item is counted under. */
  function Key(item: Item): string
  {
    match item
    case Text(s) => s
    case Other(printed) => printed
  }

  function Keys(items: seq<Item>): (keys: seq<string>)
    ensures |keys| == |items|
    ensures forall i :: 0 <= i < |items| ==> keys[i] == Key(items[i])
  {
    if items == [] then [] else Keys(items[..|items| - 1]) + [Key(items[|items| - 1])]
  }

  /** The keys the file callbacks count, file after file; `None` when some
      file's `fresh_types` is a truthy non-list, on which `forEach` throws. */
  function KeysOfFiles(files: seq<Entry>): Option<seq<string>>
  {
    if files == [] then Some([])
    else
      var prev := KeysOfFiles(files[..|files| - 1]);
      var field := GetFreshTypesFromFile(files[|files| - 1].freshTypes);
      if prev.None? || !field.List? then None else Some(prev.value + Keys(field.items))
  }

  /** The keys counted over all scanned directories, directory after directory. */
  function ScannedKeys(tree: Tree, dirs: seq<string>): Option<seq<string>>
  {
    if dirs == [] then Some([])
    else
      var prev := ScannedKeys(tree, dirs[..|dirs| - 1]);
      var here := KeysOfFiles(FilesInDir(tree, dirs[|dirs| - 1]));
      if prev.None? || here.None? then None else Some(prev.value + here.value)
  }

  /** The scan fails exactly when some scanned file has a truthy non-list
      `fresh_types`. */
  lemma {:induction false} KeysOfFilesFails(files: seq<Entry>)
    ensures KeysOfFiles(files).None? <==> exists f :: f in files && f.freshTypes.Scalar?
  {
    if files != [] {
      var init, last := files[..|files| - 1], files[|files| - 1];
      KeysOfFilesFails(init);
      assert files == init + [last];
      assert forall f :: f in files <==> f in init || f == last;
    }
  }

  /** A file without `fresh_types` contributes no keys. */
  lemma AbsentContributesNothing(files: seq<Entry>, e: Entry)
    requires e.freshTypes.Absent?
    ensures KeysOfFiles(files + [e]) == KeysOfFiles(files)
  {
    assert (files + [e])[..|files + [e]| - 1] == files;
    if KeysOfFiles(files).Some? {
      assert KeysOfFiles(files).value + Keys([]) == KeysOfFiles(files).value;
    }
  }

  /** The innermost `freshTypes.forEach`: one property update per item. */
  method TallyItems(counts: map<string, nat>, ghost seen: seq<string>, items: seq<Item>)
    returns (counts': map<string, nat>)
    requires Tallies(counts, seen)
    ensures Tallies(counts', seen + Keys(items))
  {
    counts' := counts;
    assert Keys(items)[..0] == [] && seen + [] == seen;
    for l := 0 to |items|
      invariant Tallies(counts', seen + Keys(items)[..l])
    {
      var freshType := Key(items[l]);
      TalliesSnoc(counts', seen + Keys(items)[..l], freshType);
      counts' := counts'[freshType := Get(counts', freshType) + 1];
      assert seen + Keys(items)[..l + 1] == seen + Keys(items)[..l] + [freshType];
    }
    assert Keys(items)[..|items|] == Keys(items);
  }

  /** The `files.forEach` of one directory; `None` when a callback throws. */
  method TallyFiles(counts: map<string, nat>, ghost seen: seq<string>, files: seq<Entry>)
    returns (r: Option<map<string, nat>>)
    requires Tallies(counts, seen)
    ensures r.None? <==> KeysOfFiles(files).None?
    ensures r.Some? ==> Tallies(r.value, seen + KeysOfFiles(files).value)
  {
    var acc := counts;
    assert seen + KeysOfFiles(files[..0]).value == seen;
    for j := 0 to |files|
      invariant KeysOfFiles(files[..j]).Some?
      invariant Tallies(acc, seen + KeysOfFiles(files[..j]).value)
    {
      assert files[..j + 1][..j] == files[..j];
      var freshTypes := GetFreshTypesFromFile(files[j].freshTypes);
      if !freshTypes.List? {
        assert files[..j + 1] + files[j + 1..] == files;
        KeysOfFilesPrefixFails(files[..j + 1], files[j + 1..]);
        return None;
      }
      acc := TallyItems(acc, seen + KeysOfFiles(files[..j]).value, freshTypes.items);
      assert seen + KeysOfFiles(files[..j + 1]).value == seen + KeysOfFiles(files[..j]).value + Keys(freshTypes.items);
    }
    assert files[..|files|] == files;
    r := Some(acc);
  }

  /** Once a prefix of the files fails, the whole sequence fails. */
  lemma {:induction false} KeysOfFilesPrefixFails(a: seq<Entry>, b: seq<Entry>)
    requires KeysOfFiles(a).None?
    ensures KeysOfFiles(a + b).None?
  {
    if b == [] {
      assert a + b == a;
    } else {
      var b' := b[..|b| - 1];
      assert (a + b)[..|a + b| - 1] == a + b';
      KeysOfFilesPrefixFails(a, b');
    }
  }

  /** Once a prefix of the directories fails, the whole scan fails. */
  lemma {:induction false} ScannedKeysPrefixFails(tree: Tree, a: seq<string>, b: seq<string>)
    requires ScannedKeys(tree, a).None?
    ensures ScannedKeys(tree, a + b).None?
  {
    if b == [] {
      assert a + b == a;
    } else {
      var b' := b[..|b| - 1];
      assert (a + b)[..|a + b| - 1] == a + b';
      ScannedKeysPrefixFails(tree, a, b');
    }
  }

  /** One more directory extends the scan by that directory's keys. */
  lemma ScannedKeysStep(tree: Tree, dirs: seq<string>, i: nat)
    requires i < |dirs| && ScannedKeys(tree, dirs[..i]).Some?
    requires KeysOfFiles(FilesInDir(tree, dirs[i])).Some?
    ensures ScannedKeys(tree, dirs[..i + 1])
         == Some(ScannedKeys(tree, dirs[..i]).value + KeysOfFiles(FilesInDir(tree, dirs[i])).value)
  {
    assert dirs[..i + 1][..i] == dirs[..i];
  }

  /** A directory whose scan fails makes the whole scan fail. */
  lemma ScannedKeysFailsAt(tree: Tree, dirs: seq<string>, i: nat)
    requires i < |dirs| && KeysOfFiles(FilesInDir(tree, dirs[i])).None?
    ensures ScannedKeys(tree, dirs).None?
  {
    assert dirs[..i + 1][..i] == dirs[..i];
    assert dirs[..i + 1] + dirs[i + 1..] == dirs;
    ScannedKeysPrefixFails(tree, dirs[..i + 1], dirs[i + 1..]);
  }

  /** Some file has a truthy `fresh_types` that is not a list. */
  ghost predicate HasScalar(files: seq<Entry>)
  {
    exists f :: f in files && f.freshTypes.Scalar?
  }

  /** Some scanned directory holds such a file. */
  ghost predicate HasScalarDir(tree: Tree, dirs: seq<string>)
  {
    exists i :: 0 <= i < |dirs| && HasScalar(FilesInDir(tree, dirs[i]))
  }

  /** The whole count throws exactly when some scanned directory holds a file
      whose `fresh_types` is a truthy value that is not a list. */
  lemma ScanFailsExactlyAtScalar(tree: Tree, dirs: seq<string>)
    ensures ScannedKeys(tree, dirs).None? <==> HasScalarDir(tree, dirs)
  {
    if HasScalarDir(tree, dirs) {
      var i :| 0 <= i < |dirs| && HasScalar(FilesInDir(tree, dirs[i]));
      KeysOfFilesFails(FilesInDir(tree, dirs[i]));
      ScannedKeysFailsAt(tree, dirs, i);
    }
    if ScannedKeys(tree, dirs).None? {
      ScanFailsOnlyAtScalar(tree, dirs);
    }
  }

  /** A failed scan has a directory to blame. */
  lemma {:induction false} ScanFailsOnlyAtScalar(tree: Tree, dirs: seq<string>)
    requires ScannedKeys(tree, dirs).None?
    ensures HasScalarDir(tree, dirs)
  {
    var init, last := dirs[..|dirs| - 1], dirs[|dirs| - 1];
    if ScannedKeys(tree, init).None? {
      ScanFailsOnlyAtScalar(tree, init);
      var i :| 0 <= i < |init| && HasScalar(FilesInDir(tree, init[i]));
      assert init[i] == dirs[i];
    } else {
      KeysOfFilesFails(FilesInDir(tree, last));
      assert HasScalar(FilesInDir(tree, dirs[|dirs| - 1]));
    }
  }

  /** `countFreshTypes(dirs)`: the object with one property per key that
      occurs, holding its number of occurrences; `None` when it throws. */
  method CountFreshTypes(tree: Tree, dirs: seq<string>) returns (r: Option<map<string, nat>>)
    ensures r.None? <==> ScannedKeys(tree, dirs).None?
    ensures r.None? <==> HasScalarDir(tree, dirs)
    ensures r.Some? ==> Tallies(r.value, ScannedKeys(tree, dirs).value)
  {
    ScanFailsExactlyAtScalar(tree, dirs);
    var counts: map<string, nat> := map[];
    ghost var seen: seq<string> := [];
    assert dirs[..0] == [];
    for i := 0 to |dirs|
      invariant ScannedKeys(tree, dirs[..i]) == Some(seen)
      invariant Tallies(counts, seen)
    {
      var files := FilesInDir(tree, dirs[i]);
      var next := TallyFiles(counts, seen, files);
      if next.None? {
        ScannedKeysFailsAt(tree, dirs, i);
        return None;
      }
      ScannedKeysStep(tree, dirs, i);
      counts := next.value;
      seen := seen + KeysOfFiles(files).value;
    }
    assert dirs[..|dirs|] == dirs;
    r := Some(counts);
  }

  /** `generateStatistics()`, without the file written at the end. */
  method GenerateStatistics(tree: Tree) returns (r: Option<map<string, nat>>)
    ensures r.None? <==> ScannedKeys(tree, MJS_DIRS).None?
    ensures r.None? <==> HasScalarDir(tree, MJS_DIRS)
    ensures r.Some? ==> Tallies(r.value, ScannedKeys(tree, MJS_DIRS).value)
  {
    r := CountFreshTypes(tree, MJS_DIRS);
  }

  /** What the result says about every key: present exactly when it occurs,
      never zero, and the values add up to the number of entries counted. */
  lemma LegacyCounts(counts: map<string, nat>, keys: seq<string>, ks: seq<string>)
    requires Tallies(counts, keys)
    requires NoDup(ks) && forall t :: t in counts <==> t in ks
    ensures forall t :: t in counts <==> t in keys
    ensures forall t :: t in counts ==> counts[t] == Count(t, keys) >= 1
    ensures SumValues(ks, counts) == |keys|
  {
    TalliesHaveNoZeros(counts, keys);
    TallySum(counts, keys, ks);
  }

  /** Two trees that agree on the scanned directories give the same scan. */
  lemma {:induction false} OnlyScannedDirsMatter(tree: Tree, tree2: Tree, dirs: seq<string>)
    requires forall d :: d in dirs ==> FilesInDir(tree, d) == FilesInDir(tree2, d)
    ensures ScannedKeys(tree, dirs) == ScannedKeys(tree2, dirs)
  {
    if dirs != [] {
      OnlyScannedDirsMatter(tree, tree2, dirs[..|dirs| - 1]);
      assert dirs[|dirs| - 1] in dirs;
    }
  }

  /** Whatever `memo/references_recipes` holds, the result is the same. */
  lemma ReferencesRecipesIgnored(tree: Tree, entries: seq<Entry>)
    ensures ScannedKeys(tree[REFERENCES_DIR := entries], MJS_DIRS) == ScannedKeys(tree, MJS_DIRS)
    ensures ScannedKeys(tree - {REFERENCES_DIR}, MJS_DIRS) == ScannedKeys(tree, MJS_DIRS)
  {
    OnlyScannedDirsMatter(tree[REFERENCES_DIR := entries], tree, MJS_DIRS);
    OnlyScannedDirsMatter(tree - {REFERENCES_DIR}, tree, MJS_DIRS);
  }

  /** Any listed value is counted, whitelisted or not, while a file that is
      not `.mdx` and a directory that is not scanned contribute nothing. */
  lemma UnfilteredExample()
    ensures ScannedKeys(map[
      "memo/table_recipes" := [Entry(true, "a.mdx", List([Text("memo"), Text("draft")])),
                               Entry(true, "b.md", List([Text("x")]))],
      "memo/algorithm_recipes" := [Entry(true, "c.mdx", List([Text("y")]))]], MJS_DIRS) == Some(["memo", "draft"])
  {
    var a := Entry(true, "a.mdx", List([Text("memo"), Text("draft")]));
    var b := Entry(true, "b.md", List([Text("x")]));
    assert IsMdxFile(a) && !IsMdxFile(b);
    assert MdxFiles([a, b]) == [a] by {
      assert [a, b][..1] == [a] && [a][..0] == [];
    }
    var items := [Text("memo"), Text("draft")];
    assert items[..1] == [Text("memo")];
    assert Keys(items[..1]) == ["memo"] by {
      assert items[..1][..0] == [];
    }
    assert Keys(items) == ["memo", "draft"];
    assert KeysOfFiles([a]) == Some(["memo", "draft"]) by {
      assert [a][..0] == [];
      assert KeysOfFiles([]) == Some([]);
      assert [] + Keys(items) == Keys(items);
    }
    var tree := map[
      "memo/table_recipes" := [a, b],
      "memo/algorithm_recipes" := [Entry(true, "c.mdx", List([Text("y")]))]];
    assert FilesInDir(tree, "memo/table_recipes") == [a];
    var first := ["memo/visualization_recipes"];
    assert "memo/visualization_recipes" !in tree;
    assert ScannedKeys(tree, first) == Some([]) by {
      assert first[..|first| - 1] == [] && first[|first| - 1] == "memo/visualization_recipes";
      assert ScannedKeys(tree, []) == Some([]);
      assert FilesInDir(tree, "memo/visualization_recipes") == [];
      var none: seq<Entry> := [];
      assert KeysOfFiles(none) == Some([]);
      var nokeys: seq<string> := [];
      assert nokeys + nokeys == nokeys;
    }
    assert MJS_DIRS[..|MJS_DIRS| - 1] == first;
  }
}
