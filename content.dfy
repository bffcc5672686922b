/** The documentation tree the statistics scripts scan
    (FreshDocs/scripts/statistics.ts and statistics.mjs): directories of
    entries, each entry with the `fresh_types` value of its front matter,
    and the tally of string occurrences both scripts build. */
module ContentTree {
  import opened Seqs

  /** One element of a `fresh_types` list: a YAML string, or any other value,
      kept with the text it becomes when used as an object key. */
  datatype Item = Text(s: string) | Other(printed: string)

  /** The `fresh_types` field of a file's front matter: missing or falsy
      (`undefined`, `null`, `false`, `0`, `""`), a list, or a truthy value
      that is not a list. */
  datatype TypesField = Absent | List(items: seq<Item>) | Scalar

  /** A directory entry as `fs.readdirSync(dir, { withFileTypes: true })`
      reports it, with the front matter of its contents. */
  datatype Entry = Entry(isFile: bool, name: string, freshTypes: TypesField)

  /** The directories under the site root; a directory that does not exist
      is not a key. */
  type Tree = map<string, seq<Entry>>

  /** A regular file whose name ends in `.mdx`. */
  predicate IsMdxFile(e: Entry)
  {
    e.isFile && EndsWith(e.name, ".mdx")
  }

  /** The `.mdx` filter of `getFilesInDir` (statistics.ts:54): the regular
      files whose names end in `.mdx`, in directory order. */
  function MdxFiles(entries: seq<Entry>): (files: seq<Entry>)
    ensures |files| <= |entries|
    ensures forall e :: e in files <==> e in entries && IsMdxFile(e)
  {
    if entries == [] then []
    else
      var last := entries[|entries| - 1];
      MdxFiles(entries[..|entries| - 1]) + (if IsMdxFile(last) then [last] else [])
  }

  /** The filter keeps the directory's order: filtering a concatenation is
      concatenating the filtered parts. */
  lemma {:induction false} MdxFilesAppend(a: seq<Entry>, b: seq<Entry>)
    ensures MdxFiles(a + b) == MdxFiles(a) + MdxFiles(b)
  {
    if b != [] {
      var b' := b[..|b| - 1];
      assert (a + b)[..|a + b| - 1] == a + b';
      assert (a + b)[|a + b| - 1] == b[|b| - 1];
      MdxFilesAppend(a, b');
    } else {
      assert a + b == a;
    }
  }

  /** `getFilesInDir(dir)`: the `.mdx` regular files of the directory, in
      directory order, and nothing for a directory that does not exist. */
  function FilesInDir(tree: Tree, dir: string): (files: seq<Entry>)
    ensures dir !in tree ==> files == []
    ensures forall e :: e in files <==> dir in tree && e in tree[dir] && IsMdxFile(e)
  {
    if dir in tree then MdxFiles(tree[dir]) else []
  }

  /** The mutable counter both scripts keep, read with a default of 0. */
  function Get<K>(counts: map<K, nat>, t: K): nat
  {
    if t in counts then counts[t] else 0
  }

  /** `counts` holds, for every string that occurs in `s`, its number of
      occurrences, and holds no other key. */
  ghost predicate Tallies<K(!new)>(counts: map<K, nat>, s: seq<K>)
  {
    forall t :: (t in counts <==> Count(t, s) > 0) && (t in counts ==> counts[t] == Count(t, s))
  }

  /** One increment of a key, read with a default of 0, keeps the tally in step
      with the sequence extended by `t`. */
  lemma TalliesSnoc<K(!new)>(counts: map<K, nat>, s: seq<K>, t: K)
    requires Tallies(counts, s)
    ensures Tallies(counts[t := Get(counts, t) + 1], s + [t])
  {
    forall u
      ensures Count(u, s + [t]) == Count(u, s) + (if t == u then 1 else 0)
    {
      CountSnoc(u, s, t);
    }
  }

  /** Reading a tally with a default of 0 gives the occurrence count. */
  lemma TallyGet<K(!new)>(counts: map<K, nat>, s: seq<K>, t: K)
    requires Tallies(counts, s)
    ensures Get(counts, t) == Count(t, s)
  {
  }

  /** A tally has no zero-valued entry. */
  lemma TalliesHaveNoZeros<K(!new)>(counts: map<K, nat>, s: seq<K>)
    requires Tallies(counts, s)
    ensures forall t :: t in counts ==> counts[t] >= 1
  {
  }

  /** The sum of the values stored under the keys `ks`. */
  function SumValues<K>(ks: seq<K>, counts: map<K, nat>): nat
  {
    if ks == [] then 0 else Get(counts, ks[0]) + SumValues(ks[1..], counts)
  }

  lemma {:induction false} SumValuesIsSumCounts<K(!new)>(ks: seq<K>, counts: map<K, nat>, s: seq<K>)
    requires Tallies(counts, s)
    ensures SumValues(ks, counts) == SumCounts(ks, s)
  {
    if ks != [] {
      SumValuesIsSumCounts(ks[1..], counts, s);
    }
  }

  /** Listing each key of a tally once, the values add up to the length of
      the tallied sequence. */
  lemma TallySum<K(!new)>(counts: map<K, nat>, s: seq<K>, ks: seq<K>)
    requires Tallies(counts, s)
    requires NoDup(ks) && forall t :: t in counts <==> t in ks
    ensures SumValues(ks, counts) == |s|
  {
    SumValuesIsSumCounts(ks, counts, s);
    forall i | 0 <= i < |s|
      ensures s[i] in ks
    {
      assert Count(s[i], s) > 0;
    }
    SumCountsIsLength(ks, s);
  }
}
