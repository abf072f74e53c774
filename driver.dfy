/**
 * The pipeline around `transformLcovMap`: `getLcovData` turns the parsed records into an
 * object keyed by file, and `getTransformedFiles` remaps every generated file through its
 * source map and flattens the results, or fails on the first file without a map.
 */
module Driver {
  import opened Wrappers
  import opened Seqs
  import opened Lcov
  import opened File
  import opened PathKey
  import opened Routing
  import opened Transform
  import opened TransformFacts

  /** A JavaScript object with string keys: its keys in insertion order, and its values. */
  datatype Dict<V> = Dict(keys: seq<string>, values: map<string, V>)
  {
    ghost predicate Valid()
    {
      Distinct(keys) && forall k :: k in values <==> k in keys
    }
  }

  function EntryKey<V>(e: (string, V)): string { e.0 }

  /**
   * `Object.fromEntries`: the keys in the order of their first occurrence; a later entry with
   * a key already present replaces its value and keeps its position.
   */
  function FromEntries<V>(entries: seq<(string, V)>): (d: Dict<V>)
    ensures d.Valid()
    ensures d.keys == Dedup(Image(entries, EntryKey))
    decreases |entries|
  {
    if entries == [] then Dict([], map[])
    else
      var prefix, last := entries[..|entries| - 1], entries[|entries| - 1];
      var d := FromEntries(prefix);
      assert entries == prefix + [last];
      ImageSnoc(prefix, last, EntryKey);
      DedupAppend(Image(prefix, EntryKey), last.0);
      Dict(if last.0 in d.values then d.keys else d.keys + [last.0], d.values[last.0 := last.1])
  }

  /** A key is present exactly when some entry has it. */
  lemma {:induction false} FromEntriesKeys<V>(entries: seq<(string, V)>, k: string)
    ensures k in FromEntries(entries).values <==> exists j :: 0 <= j < |entries| && entries[j].0 == k
  {
    var ks := Image(entries, EntryKey);
    assert k in ks <==> exists j :: 0 <= j < |entries| && entries[j].0 == k by {
      if k in ks {
        var j :| 0 <= j < |ks| && ks[j] == k;
        assert entries[j].0 == k;
      }
    }
  }

  /** The value under a key is the one of the last entry with that key. */
  lemma {:induction false} FromEntriesLastWins<V>(entries: seq<(string, V)>, j: nat)
    requires j < |entries|
    requires forall i :: j < i < |entries| ==> entries[i].0 != entries[j].0
    ensures entries[j].0 in FromEntries(entries).values
    ensures FromEntries(entries).values[entries[j].0] == entries[j].1
    decreases |entries|
  {
    if j < |entries| - 1 {
      var prefix := entries[..|entries| - 1];
      FromEntriesLastWins(prefix, j);
    }
  }

  function ItemEntry(item: LcovFile): (string, LcovFile) { (item.file, item) }

  /** One parsed item per generated file, as the parser yields them; `None` when it yields nothing. */
  function GetLcovData(parsed: Option<seq<LcovFile>>): (d: Dict<LcovFile>)
    ensures d.Valid()
  {
    match parsed
    case None => FromEntries([])
    case Some(items) => FromEntries(Image(items, ItemEntry))
  }

  /**
   * `getLcovData`: no items give an empty object; otherwise the keys are the items' files in the
   * order of first occurrence, and under each file is the last item about it.
   */
  lemma LcovDataByFile(items: seq<LcovFile>, k: string)
    ensures var d := GetLcovData(Some(items));
      && d.keys == Dedup(Image(items, (item: LcovFile) => item.file))
      && (k in d.values <==> exists j :: 0 <= j < |items| && items[j].file == k)
      && (forall j :: 0 <= j < |items| && items[j].file == k && (forall i :: j < i < |items| ==> items[i].file != k)
            ==> k in d.values && d.values[k] == items[j])
  {
    var es := Image(items, ItemEntry);
    assert Image(es, EntryKey) == Image(items, (item: LcovFile) => item.file);
    FromEntriesKeys(es, k);
    forall j | 0 <= j < |items| && items[j].file == k && (forall i :: j < i < |items| ==> items[i].file != k)
      ensures k in GetLcovData(Some(items)).values && GetLcovData(Some(items)).values[k] == items[j]
    {
      FromEntriesLastWins(es, j);
    }
  }

  lemma LcovDataEmpty()
    ensures GetLcovData(None) == Dict([], map[])
  {
  }

  /**
   * The missing-map check and the flatten of `getTransformedFiles` over the generated files
   * `ks`, in order, where `records(k)` lists the records built for file `k`: the error of the
   * first file without a source map, if any, and otherwise all the records, file by file.
   */
  function Flatten(ks: seq<string>, maps: map<string, SourcemapFile>, records: string -> seq<FileState>)
    : (r: Result<seq<FileState>, string>)
    ensures r.Ok? <==> forall k :: k in ks ==> k in maps
    decreases |ks|
  {
    if ks == [] then Ok([])
    else
      var ks', k := ks[..|ks| - 1], ks[|ks| - 1];
      assert ks == ks' + [k];
      match Flatten(ks', maps, records)
      case Err(e) => Err(e)
      case Ok(out) => if k !in maps then Err("Missing sourcemap: " + k) else Ok(out + records(k))
  }

  /** A failing run reports the first generated file without a source map. */
  lemma {:induction false} FirstMissing(ks: seq<string>, maps: map<string, SourcemapFile>, records: string -> seq<FileState>, j: nat)
    requires j < |ks| && ks[j] !in maps && forall i :: 0 <= i < j ==> ks[i] in maps
    ensures Flatten(ks, maps, records) == Err("Missing sourcemap: " + ks[j])
    decreases |ks|
  {
    var ks' := ks[..|ks| - 1];
    if j < |ks| - 1 {
      FirstMissing(ks', maps, records, j);
    }
  }

  /** In a successful run the records of file `ks[j]` follow those of the files before it. */
  lemma {:induction false} FlattenSlice(ks: seq<string>, maps: map<string, SourcemapFile>, records: string -> seq<FileState>, j: nat)
    requires forall k :: k in ks ==> k in maps
    requires j < |ks|
    ensures var out, before := Flatten(ks, maps, records), Flatten(ks[..j], maps, records);
      && out.Ok? && before.Ok?
      && |before.value| + |records(ks[j])| <= |out.value|
      && out.value[|before.value|..|before.value| + |records(ks[j])|] == records(ks[j])
    decreases |ks|
  {
    var ks' := ks[..|ks| - 1];
    if j < |ks| - 1 {
      FlattenSlice(ks', maps, records, j);
      assert ks'[..j] == ks[..j];
    } else {
      assert ks[..j] == ks';
    }
  }

  /** Summing a record weight over a run is summing, file by file, the sums over its records. */
  lemma {:induction false} FlattenSum(ks: seq<string>, maps: map<string, SourcemapFile>, records: string -> seq<FileState>,
                                      w: FileState -> int, tot: string -> int)
    requires forall k :: k in ks && k in maps ==> SumW(records(k), w) == tot(k)
    ensures Flatten(ks, maps, records).Ok? ==> SumW(Flatten(ks, maps, records).value, w) == SumW(ks, tot)
    decreases |ks|
  {
    if ks != [] {
      var ks' := ks[..|ks| - 1];
      var k := ks[|ks| - 1];
      FlattenSum(ks', maps, records, w, tot);
      match Flatten(ks', maps, records)
      case Err(_) =>
      case Ok(out) =>
        if k in maps {
          SumWConcat(out, records(k), w);
        }
    }
  }

  /** The records `transformLcovMap` builds for generated file `k` (none for a file without data or map). */
  function Records(lcovs: map<string, LcovFile>, maps: map<string, SourcemapFile>, sourceDir: string, paths: PathOps)
    : string -> seq<FileState>
  {
    k => if k in lcovs && k in maps then Transformed(lcovs[k], maps[k], sourceDir, paths) else []
  }

  /** What `getTransformedFiles` yields for the generated files `ks`. */
  function TransformedFiles(ks: seq<string>, lcovs: map<string, LcovFile>, maps: map<string, SourcemapFile>,
                            sourceDir: string, paths: PathOps): Result<seq<FileState>, string>
  {
    Flatten(ks, maps, Records(lcovs, maps, sourceDir, paths))
  }

  /** The number of line entries of generated file `k` that resolve, and their summed hits. */
  function ResolvedLines(lcovs: map<string, LcovFile>, maps: map<string, SourcemapFile>, sourceDir: string,
                         paths: PathOps): string -> int
  {
    k => if k in lcovs && k in maps
      then |Resolving(lcovs[k].lines.details, LineLine, Router(maps[k], sourceDir, paths))| else 0
  }

  function ResolvedLineHits(lcovs: map<string, LcovFile>, maps: map<string, SourcemapFile>, sourceDir: string,
                            paths: PathOps): string -> int
  {
    k => if k in lcovs && k in maps
      then SumW(Resolving(lcovs[k].lines.details, LineLine, Router(maps[k], sourceDir, paths)), LineHit) else 0
  }

  function ResolvedFunctions(lcovs: map<string, LcovFile>, maps: map<string, SourcemapFile>, sourceDir: string,
                             paths: PathOps): string -> int
  {
    k => if k in lcovs && k in maps
      then |Resolving(lcovs[k].functions.details, FuncLine, Router(maps[k], sourceDir, paths))| else 0
  }

  function ResolvedFunctionHits(lcovs: map<string, LcovFile>, maps: map<string, SourcemapFile>, sourceDir: string,
                                paths: PathOps): string -> int
  {
    k => if k in lcovs && k in maps
      then SumW(Resolving(lcovs[k].functions.details, FuncLine, Router(maps[k], sourceDir, paths)), FuncHit) else 0
  }

  function ResolvedBranches(lcovs: map<string, LcovFile>, maps: map<string, SourcemapFile>, sourceDir: string,
                            paths: PathOps): string -> int
  {
    k => if k in lcovs && k in maps
      then |Resolving(lcovs[k].branches.details, BranchLine, Router(maps[k], sourceDir, paths))| else 0
  }

  function ResolvedBranchTaken(lcovs: map<string, LcovFile>, maps: map<string, SourcemapFile>, sourceDir: string,
                               paths: PathOps): string -> int
  {
    k => if k in lcovs && k in maps
      then SumW(Resolving(lcovs[k].branches.details, BranchLine, Router(maps[k], sourceDir, paths)), BranchTaken) else 0
  }

  /**
   * Conservation over a whole run: over all records listed, the line `found` counts add up to the
   * number of line entries, over all generated files, that resolve, and the line `hit` sums to
   * their summed hits; the same for functions and for branches.
   */
  lemma RunConserved(ks: seq<string>, lcovs: map<string, LcovFile>, maps: map<string, SourcemapFile>,
                     sourceDir: string, paths: PathOps)
    ensures var r := TransformedFiles(ks, lcovs, maps, sourceDir, paths);
      r.Ok? ==>
        && SumW(r.value, LinesFound) == SumW(ks, ResolvedLines(lcovs, maps, sourceDir, paths))
        && SumW(r.value, LinesHit) == SumW(ks, ResolvedLineHits(lcovs, maps, sourceDir, paths))
        && SumW(r.value, FunctionsFound) == SumW(ks, ResolvedFunctions(lcovs, maps, sourceDir, paths))
        && SumW(r.value, FunctionsHit) == SumW(ks, ResolvedFunctionHits(lcovs, maps, sourceDir, paths))
        && SumW(r.value, BranchesFound) == SumW(ks, ResolvedBranches(lcovs, maps, sourceDir, paths))
        && SumW(r.value, BranchesHit) == SumW(ks, ResolvedBranchTaken(lcovs, maps, sourceDir, paths))
  {
    forall k | k in ks && k in maps
      ensures SumW(Records(lcovs, maps, sourceDir, paths)(k), LinesFound) == ResolvedLines(lcovs, maps, sourceDir, paths)(k)
      ensures SumW(Records(lcovs, maps, sourceDir, paths)(k), LinesHit) == ResolvedLineHits(lcovs, maps, sourceDir, paths)(k)
      ensures SumW(Records(lcovs, maps, sourceDir, paths)(k), FunctionsFound) == ResolvedFunctions(lcovs, maps, sourceDir, paths)(k)
      ensures SumW(Records(lcovs, maps, sourceDir, paths)(k), FunctionsHit) == ResolvedFunctionHits(lcovs, maps, sourceDir, paths)(k)
      ensures SumW(Records(lcovs, maps, sourceDir, paths)(k), BranchesFound) == ResolvedBranches(lcovs, maps, sourceDir, paths)(k)
      ensures SumW(Records(lcovs, maps, sourceDir, paths)(k), BranchesHit) == ResolvedBranchTaken(lcovs, maps, sourceDir, paths)(k)
    {
      if k in lcovs {
        LinesConserved(lcovs[k], maps[k], sourceDir, paths);
        FunctionsConserved(lcovs[k], maps[k], sourceDir, paths);
        BranchesConserved(lcovs[k], maps[k], sourceDir, paths);
      }
    }
    FlattenSum(ks, maps, Records(lcovs, maps, sourceDir, paths), LinesFound, ResolvedLines(lcovs, maps, sourceDir, paths));
    FlattenSum(ks, maps, Records(lcovs, maps, sourceDir, paths), LinesHit, ResolvedLineHits(lcovs, maps, sourceDir, paths));
    FlattenSum(ks, maps, Records(lcovs, maps, sourceDir, paths), FunctionsFound, ResolvedFunctions(lcovs, maps, sourceDir, paths));
    FlattenSum(ks, maps, Records(lcovs, maps, sourceDir, paths), FunctionsHit, ResolvedFunctionHits(lcovs, maps, sourceDir, paths));
    FlattenSum(ks, maps, Records(lcovs, maps, sourceDir, paths), BranchesFound, ResolvedBranches(lcovs, maps, sourceDir, paths));
    FlattenSum(ks, maps, Records(lcovs, maps, sourceDir, paths), BranchesHit, ResolvedBranchTaken(lcovs, maps, sourceDir, paths));
  }

  /** `_.values` of a result: its records in key order. */
  function Values(keys: seq<string>, files: map<string, OutputFile>): (vs: seq<OutputFile>)
    requires forall k :: k in keys ==> k in files
    ensures |vs| == |keys| && forall i :: 0 <= i < |keys| ==> vs[i] == files[keys[i]]
  {
    seq(|keys|, i requires 0 <= i < |keys| => files[keys[i]])
  }

  /** The accumulators `files` have, position by position, the states `states`. */
  ghost predicate Mirrors(files: seq<OutputFile>, states: seq<FileState>)
    reads files
  {
    |files| == |states| && forall j :: 0 <= j < |files| ==> files[j].State() == states[j]
  }

  /** No accumulator is listed twice. */
  predicate Unaliased(files: seq<OutputFile>)
  {
    forall j, j' :: 0 <= j < j' < |files| ==> files[j] != files[j']
  }

  /**
   * The two `map` callbacks of `getTransformedFiles` for generated file `key`: throws
   * `Missing sourcemap: <key>` when it has no map, and otherwise lists the values of the
   * result of `transformLcovMap`, new and distinct accumulators in key order.
   */
  method TransformEntry(key: string, lcovs: map<string, LcovFile>, maps: map<string, SourcemapFile>,
                        sourceDir: string, paths: PathOps)
    returns (r: Result<seq<OutputFile>, string>)
    requires key in lcovs
    ensures key !in maps ==> r == Err("Missing sourcemap: " + key)
    ensures key in maps ==> r.Ok? && Mirrors(r.value, Records(lcovs, maps, sourceDir, paths)(key)) && Unaliased(r.value)
    ensures r.Ok? ==> forall i :: 0 <= i < |r.value| ==> fresh(r.value[i])
  {
    if key !in maps {
      return Err("Missing sourcemap: " + key);
    }
    var keys, files := TransformLcovMap(lcovs[key], maps[key], sourceDir, paths);
    KeysDistinct(lcovs[key], maps[key], sourceDir, paths);
    var vs := Values(keys, files);
    ghost var spec := Transformed(lcovs[key], maps[key], sourceDir, paths);
    assert Records(lcovs, maps, sourceDir, paths)(key) == spec;
    assert Mirrors(vs, spec);
    return Ok(vs);
  }

  /**
   * After the first `n` generated files, `getTransformedFiles` holds the records `out`, whose
   * states `acc` are those the specification lists for those files.
   */
  ghost predicate Upto(lcov: Dict<LcovFile>, maps: map<string, SourcemapFile>, sourceDir: string, paths: PathOps,
                       n: nat, out: seq<OutputFile>, acc: seq<FileState>)
    reads out
  {
    && n <= |lcov.keys|
    && Flatten(lcov.keys[..n], maps, Records(lcov.values, maps, sourceDir, paths)) == Ok(acc)
    && Mirrors(out, acc) && Unaliased(out)
  }

  /** What `Joined` needs: both parts matched to their states, distinct, and disjoint. */
  ghost predicate Joinable(out: seq<OutputFile>, group: seq<OutputFile>, acc: seq<FileState>, spec: seq<FileState>)
    reads out, group
  {
    && Mirrors(out, acc) && Mirrors(group, spec) && Unaliased(out) && Unaliased(group)
    && forall j, j' :: 0 <= j < |out| && 0 <= j' < |group| ==> out[j] != group[j']
  }

  /**
   * One step of `getTransformedFiles`: the records so far, `out`, followed by those of
   * `lcov.keys[i]`, or the error the run ends with.
   */
  method Step(lcov: Dict<LcovFile>, maps: map<string, SourcemapFile>, sourceDir: string, paths: PathOps, i: nat,
              out: seq<OutputFile>, ghost acc: seq<FileState>)
    returns (r: Result<seq<OutputFile>, string>, ghost acc': seq<FileState>)
    requires lcov.Valid() && i < |lcov.keys|
    requires Upto(lcov, maps, sourceDir, paths, i, out, acc)
    ensures r.Err? ==> Flatten(lcov.keys, maps, Records(lcov.values, maps, sourceDir, paths)) == Err(r.error)
    ensures r.Ok? ==> Upto(lcov, maps, sourceDir, paths, i + 1, r.value, acc')
  {
    ghost var records := Records(lcov.values, maps, sourceDir, paths);
    var key := lcov.keys[i];
    var group := TransformEntry(key, lcov.values, maps, sourceDir, paths);
    if group.Err? {
      StopsAt(lcov, maps, records, i);
      return Err(group.error), acc;
    }
    FlattenSnoc(lcov.keys, maps, records, i, acc);
    Joined(out, group.value, acc, records(key));
    return Ok(out + group.value), acc + records(key);
  }

  /** A file with a map extends a successful run by its records. */
  lemma FlattenSnoc(ks: seq<string>, maps: map<string, SourcemapFile>, records: string -> seq<FileState>, i: nat,
                    acc: seq<FileState>)
    requires i < |ks| && ks[i] in maps && Flatten(ks[..i], maps, records) == Ok(acc)
    ensures Flatten(ks[..i + 1], maps, records) == Ok(acc + records(ks[i]))
  {
    assert ks[..i + 1][..i] == ks[..i];
  }

  /** A generated file without a map ends the whole run with its error. */
  lemma StopsAt(lcov: Dict<LcovFile>, maps: map<string, SourcemapFile>, records: string -> seq<FileState>, i: nat)
    requires lcov.Valid() && i < |lcov.keys| && lcov.keys[i] !in maps
    requires Flatten(lcov.keys[..i], maps, records).Ok?
    ensures Flatten(lcov.keys, maps, records) == Err("Missing sourcemap: " + lcov.keys[i])
  {
    assert forall j :: 0 <= j < i ==> lcov.keys[j] in lcov.keys[..i];
    FirstMissing(lcov.keys, maps, records, i);
  }

  /** Appending the records of one file keeps the run's records matched to their states, and distinct. */
  lemma Joined(out: seq<OutputFile>, group: seq<OutputFile>, acc: seq<FileState>, spec: seq<FileState>)
    requires Joinable(out, group, acc, spec)
    ensures Mirrors(out + group, acc + spec) && Unaliased(out + group)
  {
    forall j, j' | 0 <= j < j' < |out + group| ensures (out + group)[j] != (out + group)[j'] {
      if j' < |out| {
      } else if j < |out| {
        assert (out + group)[j'] == group[j' - |out|];
      } else {
        assert (out + group)[j] == group[j - |out|] && (out + group)[j'] == group[j' - |out|];
      }
    }
  }

  /**
   * `getTransformedFiles` on the parsed data `lcov` and the loaded maps: throws
   * `Missing sourcemap: <file>` for the first generated file without a map; otherwise the
   * records of every generated file, in order, each a distinct accumulator.
   */
  method GetTransformedFiles(lcov: Dict<LcovFile>, maps: map<string, SourcemapFile>, sourceDir: string, paths: PathOps)
    returns (r: Result<seq<OutputFile>, string>)
    requires lcov.Valid()
    ensures var spec := TransformedFiles(lcov.keys, lcov.values, maps, sourceDir, paths);
      && (r.Err? <==> spec.Err?)
      && (r.Err? ==> r.error == spec.error)
      && (r.Ok? ==> Mirrors(r.value, spec.value) && Unaliased(r.value))
  {
    var out: seq<OutputFile> := [];
    ghost var acc: seq<FileState> := [];
    for i := 0 to |lcov.keys|
      invariant Upto(lcov, maps, sourceDir, paths, i, out, acc)
    {
      var step;
      step, acc := Step(lcov, maps, sourceDir, paths, i, out, acc);
      if step.Err? {
        return step;
      }
      out := step.value;
    }
    assert lcov.keys[..|lcov.keys|] == lcov.keys;
    return Ok(out);
  }
}
