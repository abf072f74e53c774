/**
 * `transformLcovMap`: remaps the entries of one generated file's coverage record onto the
 * records of the original files, through that file's source map.
 */
module Transform {
  import opened Wrappers
  import opened Seqs
  import opened Lcov
  import opened File
  import opened PathKey
  import opened Routing

  /**
   * Resolution of one generated line: no target when the consumer gives no position, or a
   * position without a source (or with an empty one).
   */
  function Route(sm: SourcemapFile, sourceDir: string, paths: PathOps, line: int): (t: Option<Target>)
    ensures var pos := sm.consumer.originalPositionFor(line);
      t.None? <==> pos.None? || pos.value.source.None? || pos.value.source.value == ""
    ensures var pos := sm.consumer.originalPositionFor(line);
      t.Some? ==> t.value.line == pos.value.line && t.value.key == FileKey(sm, sourceDir, paths, pos.value.source.value)
  {
    match sm.consumer.originalPositionFor(line)
    case None => None
    case Some(pos) =>
      if Truthy(pos.source) then Some(Target(FileKey(sm, sourceDir, paths, pos.source.value), pos.line))
      else None
  }

  function Router(sm: SourcemapFile, sourceDir: string, paths: PathOps): int -> Option<Target>
  {
    line => Route(sm, sourceDir, paths, line)
  }

  /** An entry whose line `Route` resolves to `t` is routed, relocated to `t.line`. */
  lemma RouteStepSome<T>(s: seq<T>, i: nat, lineOf: T -> int, at: (T, int) -> T,
                         sm: SourcemapFile, sourceDir: string, paths: PathOps, rs: seq<Routed<T>>, t: Target)
    requires i < |s| && rs == RouteAll(s[..i], lineOf, at, Router(sm, sourceDir, paths))
    requires Route(sm, sourceDir, paths, lineOf(s[i])) == Some(t)
    ensures rs + [Routed(t.key, at(s[i], t.line))] == RouteAll(s[..i + 1], lineOf, at, Router(sm, sourceDir, paths))
  {
    RouteAllStep(s, i, lineOf, at, Router(sm, sourceDir, paths));
  }

  /** An entry whose line `Route` does not resolve is dropped. */
  lemma RouteStepNone<T>(s: seq<T>, i: nat, lineOf: T -> int, at: (T, int) -> T,
                         sm: SourcemapFile, sourceDir: string, paths: PathOps, rs: seq<Routed<T>>)
    requires i < |s| && rs == RouteAll(s[..i], lineOf, at, Router(sm, sourceDir, paths))
    requires Route(sm, sourceDir, paths, lineOf(s[i])).None?
    ensures rs == RouteAll(s[..i + 1], lineOf, at, Router(sm, sourceDir, paths))
  {
    RouteAllStep(s, i, lineOf, at, Router(sm, sourceDir, paths));
  }

  function FuncLine(f: LcovFunc): int { f.line }
  function LineLine(l: LcovLine): int { l.line }
  function BranchLine(b: LcovBranch): int { b.line }

  /** The entries built for the original record: only the line changes. */
  function FuncAt(f: LcovFunc, line: int): LcovFunc { LcovFunc(f.name, line, f.hit) }
  function LineAt(l: LcovLine, line: int): LcovLine { LcovLine(line, l.hit) }
  function BranchAt(b: LcovBranch, line: int): LcovBranch { LcovBranch(line, b.block, b.branch, b.taken) }

  function RoutedFunctions(lcov: LcovFile, sm: SourcemapFile, sourceDir: string, paths: PathOps): seq<Routed<LcovFunc>>
  {
    RouteAll(lcov.functions.details, FuncLine, FuncAt, Router(sm, sourceDir, paths))
  }

  function RoutedLines(lcov: LcovFile, sm: SourcemapFile, sourceDir: string, paths: PathOps): seq<Routed<LcovLine>>
  {
    RouteAll(lcov.lines.details, LineLine, LineAt, Router(sm, sourceDir, paths))
  }

  function RoutedBranches(lcov: LcovFile, sm: SourcemapFile, sourceDir: string, paths: PathOps): seq<Routed<LcovBranch>>
  {
    RouteAll(lcov.branches.details, BranchLine, BranchAt, Router(sm, sourceDir, paths))
  }

  /** The record for key `k` holding the entries of `rf`, `rl`, `rb` routed to it. */
  function Partial(k: string, rf: seq<Routed<LcovFunc>>, rl: seq<Routed<LcovLine>>, rb: seq<Routed<LcovBranch>>): FileState
  {
    FileState(k, Group(Only(k, rf), FuncHit), Group(Only(k, rl), LineHit), Group(Only(k, rb), BranchTaken))
  }

  /** The keys of the result, in the order in which their records are first created. */
  function OutputKeys(lcov: LcovFile, sm: SourcemapFile, sourceDir: string, paths: PathOps): seq<string>
  {
    Dedup(KeysOf(RoutedFunctions(lcov, sm, sourceDir, paths)) + KeysOf(RoutedLines(lcov, sm, sourceDir, paths))
      + KeysOf(RoutedBranches(lcov, sm, sourceDir, paths)))
  }

  /** The record the result holds under key `k`. */
  function RecordFor(k: string, lcov: LcovFile, sm: SourcemapFile, sourceDir: string, paths: PathOps): FileState
  {
    Partial(k, RoutedFunctions(lcov, sm, sourceDir, paths), RoutedLines(lcov, sm, sourceDir, paths),
      RoutedBranches(lcov, sm, sourceDir, paths))
  }

  function RecordOf(lcov: LcovFile, sm: SourcemapFile, sourceDir: string, paths: PathOps): string -> FileState
  {
    k => RecordFor(k, lcov, sm, sourceDir, paths)
  }

  /** The result's records in key order: what `_.values` of the result lists. */
  function Transformed(lcov: LcovFile, sm: SourcemapFile, sourceDir: string, paths: PathOps): seq<FileState>
  {
    Image(OutputKeys(lcov, sm, sourceDir, paths), RecordOf(lcov, sm, sourceDir, paths))
  }

  lemma PartialAddFunction(k: string, rf: seq<Routed<LcovFunc>>, r: Routed<LcovFunc>, rl: seq<Routed<LcovLine>>, rb: seq<Routed<LcovBranch>>)
    ensures Partial(k, rf + [r], rl, rb) ==
      if r.key == k then Partial(k, rf, rl, rb).AddFunction(r.entry) else Partial(k, rf, rl, rb)
  {
    OnlyAppend(k, rf, r);
    SumWAppend(Only(k, rf), r.entry, FuncHit);
  }

  lemma PartialAddLine(k: string, rf: seq<Routed<LcovFunc>>, rl: seq<Routed<LcovLine>>, r: Routed<LcovLine>, rb: seq<Routed<LcovBranch>>)
    ensures Partial(k, rf, rl + [r], rb) ==
      if r.key == k then Partial(k, rf, rl, rb).AddLine(r.entry) else Partial(k, rf, rl, rb)
  {
    OnlyAppend(k, rl, r);
    SumWAppend(Only(k, rl), r.entry, LineHit);
  }

  lemma PartialAddBranch(k: string, rf: seq<Routed<LcovFunc>>, rl: seq<Routed<LcovLine>>, rb: seq<Routed<LcovBranch>>, r: Routed<LcovBranch>)
    ensures Partial(k, rf, rl, rb + [r]) ==
      if r.key == k then Partial(k, rf, rl, rb).AddBranch(r.entry) else Partial(k, rf, rl, rb)
  {
    OnlyAppend(k, rb, r);
    SumWAppend(Only(k, rb), r.entry, BranchTaken);
  }

  /** `files[fn] = files[fn] || new OutputFile(fn)`: the record for `fn`, created on first use. */
  method GetFile(files: map<string, OutputFile>, keys: seq<string>, fn: string)
    returns (files': map<string, OutputFile>, keys': seq<string>, file: OutputFile)
    ensures fn in files ==> files' == files && keys' == keys && file == files[fn]
    ensures fn !in files ==>
      fresh(file) && file.State() == Empty(fn) && files' == files[fn := file] && keys' == keys + [fn]
  {
    if fn in files {
      file := files[fn];
      files', keys' := files, keys;
    } else {
      file := new OutputFile(fn);
      files' := files[fn := file];
      keys' := keys + [fn];
    }
  }

  /** The record of `fn` so far, or a fresh one when `fn` has none yet. */
  function Current(states: map<string, FileState>, fn: string): FileState
  {
    if fn in states then states[fn] else Empty(fn)
  }

  /** Every record in `states` is the one built from the routed entries `rf`, `rl`, `rb`. */
  ghost predicate Holds(states: map<string, FileState>,
                        rf: seq<Routed<LcovFunc>>, rl: seq<Routed<LcovLine>>, rb: seq<Routed<LcovBranch>>)
  {
    forall k {:trigger Partial(k, rf, rl, rb)} :: k in states ==> states[k] == Partial(k, rf, rl, rb)
  }

  /** A key nothing was routed to has the empty record. */
  lemma CurrentAbsent(states: map<string, FileState>, fn: string,
                      rf: seq<Routed<LcovFunc>>, rl: seq<Routed<LcovLine>>, rb: seq<Routed<LcovBranch>>)
    requires Holds(states, rf, rl, rb)
    requires fn in states || (fn !in KeysOf(rf) && fn !in KeysOf(rl) && fn !in KeysOf(rb))
    ensures Current(states, fn) == Partial(fn, rf, rl, rb)
  {
    if fn !in states {
      OnlyAbsent(fn, rf);
      OnlyAbsent(fn, rl);
      OnlyAbsent(fn, rb);
    }
  }

  lemma HoldsAddFunction(states: map<string, FileState>, fn: string, f: LcovFunc,
                         rf: seq<Routed<LcovFunc>>, rl: seq<Routed<LcovLine>>, rb: seq<Routed<LcovBranch>>)
    requires Holds(states, rf, rl, rb)
    requires fn in states || (fn !in KeysOf(rf) && fn !in KeysOf(rl) && fn !in KeysOf(rb))
    ensures Holds(states[fn := Current(states, fn).AddFunction(f)], rf + [Routed(fn, f)], rl, rb)
  {
    CurrentAbsent(states, fn, rf, rl, rb);
    forall k | k in states
      ensures Partial(k, rf + [Routed(fn, f)], rl, rb) == if k == fn then states[k].AddFunction(f) else states[k]
    {
      PartialAddFunction(k, rf, Routed(fn, f), rl, rb);
    }
    PartialAddFunction(fn, rf, Routed(fn, f), rl, rb);
  }

  lemma HoldsAddLine(states: map<string, FileState>, fn: string, l: LcovLine,
                     rf: seq<Routed<LcovFunc>>, rl: seq<Routed<LcovLine>>, rb: seq<Routed<LcovBranch>>)
    requires Holds(states, rf, rl, rb)
    requires fn in states || (fn !in KeysOf(rf) && fn !in KeysOf(rl) && fn !in KeysOf(rb))
    ensures Holds(states[fn := Current(states, fn).AddLine(l)], rf, rl + [Routed(fn, l)], rb)
  {
    CurrentAbsent(states, fn, rf, rl, rb);
    forall k | k in states
      ensures Partial(k, rf, rl + [Routed(fn, l)], rb) == if k == fn then states[k].AddLine(l) else states[k]
    {
      PartialAddLine(k, rf, rl, Routed(fn, l), rb);
    }
    PartialAddLine(fn, rf, rl, Routed(fn, l), rb);
  }

  lemma HoldsAddBranch(states: map<string, FileState>, fn: string, b: LcovBranch,
                       rf: seq<Routed<LcovFunc>>, rl: seq<Routed<LcovLine>>, rb: seq<Routed<LcovBranch>>)
    requires Holds(states, rf, rl, rb)
    requires fn in states || (fn !in KeysOf(rf) && fn !in KeysOf(rl) && fn !in KeysOf(rb))
    ensures Holds(states[fn := Current(states, fn).AddBranch(b)], rf, rl, rb + [Routed(fn, b)])
  {
    CurrentAbsent(states, fn, rf, rl, rb);
    forall k | k in states
      ensures Partial(k, rf, rl, rb + [Routed(fn, b)]) == if k == fn then states[k].AddBranch(b) else states[k]
    {
      PartialAddBranch(k, rf, rl, rb, Routed(fn, b));
    }
    PartialAddBranch(fn, rf, rl, rb, Routed(fn, b));
  }

  /** Routing one more entry adds its key to the key order unless it is already there. */
  lemma KeysStepFirst<T>(rs: seq<Routed<T>>, r: Routed<T>)
    ensures Dedup(KeysOf(rs + [r])) == if r.key in KeysOf(rs) then Dedup(KeysOf(rs)) else Dedup(KeysOf(rs)) + [r.key]
  {
    KeysOfAppend(rs, r);
    DedupAppend(KeysOf(rs), r.key);
  }

  /** The same, after the keys `pre` of the earlier groups. */
  lemma KeysStep<T>(pre: seq<string>, rs: seq<Routed<T>>, r: Routed<T>)
    ensures Dedup(pre + KeysOf(rs + [r])) ==
      if r.key in pre + KeysOf(rs) then Dedup(pre + KeysOf(rs)) else Dedup(pre + KeysOf(rs)) + [r.key]
  {
    KeysOfAppend(rs, r);
    assert pre + KeysOf(rs + [r]) == (pre + KeysOf(rs)) + [r.key];
    DedupAppend(pre + KeysOf(rs), r.key);
  }

  /**
   * `files` holds, under each key of `states` and under no other, an accumulator for that path
   * whose state is the one `states` gives (so distinct keys hold distinct accumulators).
   */
  ghost predicate Tracks(files: map<string, OutputFile>, states: map<string, FileState>)
    reads files.Values
  {
    && files.Keys == states.Keys
    && (forall k :: k in files ==> files[k].path == k && files[k].State() == states[k])
  }

  /** The accumulator `getFile(fn)` returns, created on first use. */
  method Fetch(keys: seq<string>, files: map<string, OutputFile>, fn: string, ghost states: map<string, FileState>)
    returns (keys': seq<string>, files': map<string, OutputFile>, file: OutputFile)
    requires Tracks(files, states)
    ensures keys' == if fn in files then keys else keys + [fn]
    ensures file.State() == Current(states, fn)
    ensures Tracks(files', states[fn := Current(states, fn)])
    ensures files'[fn] == file
    ensures fn in files ==> files' == files
    ensures fn !in files ==> fn in files' && fresh(files'[fn]) && files' == files[fn := files'[fn]]
  {
    files', keys', file := GetFile(files, keys, fn);
  }

  /** `getFile(fn).addFunction(f)`. */
  method PlaceFunction(keys: seq<string>, files: map<string, OutputFile>, fn: string, f: LcovFunc,
                       ghost states: map<string, FileState>)
    returns (keys': seq<string>, files': map<string, OutputFile>)
    requires Tracks(files, states)
    modifies if fn in files then {files[fn]} else {}
    ensures keys' == if fn in files then keys else keys + [fn]
    ensures Tracks(files', states[fn := Current(states, fn).AddFunction(f)])
    ensures fn in files ==> files' == files
    ensures fn !in files ==> fn in files' && fresh(files'[fn]) && files' == files[fn := files'[fn]]
  {
    var file;
    keys', files', file := Fetch(keys, files, fn, states);
    file := file.AddFunction(f);
  }

  /** `getFile(fn).addLine(l)`. */
  method PlaceLine(keys: seq<string>, files: map<string, OutputFile>, fn: string, l: LcovLine,
                       ghost states: map<string, FileState>)
    returns (keys': seq<string>, files': map<string, OutputFile>)
    requires Tracks(files, states)
    modifies if fn in files then {files[fn]} else {}
    ensures keys' == if fn in files then keys else keys + [fn]
    ensures Tracks(files', states[fn := Current(states, fn).AddLine(l)])
    ensures fn in files ==> files' == files
    ensures fn !in files ==> fn in files' && fresh(files'[fn]) && files' == files[fn := files'[fn]]
  {
    var file;
    keys', files', file := Fetch(keys, files, fn, states);
    file := file.AddLine(l);
  }

  /** `getFile(fn).addBranch(b)`. */
  method PlaceBranch(keys: seq<string>, files: map<string, OutputFile>, fn: string, b: LcovBranch,
                       ghost states: map<string, FileState>)
    returns (keys': seq<string>, files': map<string, OutputFile>)
    requires Tracks(files, states)
    modifies if fn in files then {files[fn]} else {}
    ensures keys' == if fn in files then keys else keys + [fn]
    ensures Tracks(files', states[fn := Current(states, fn).AddBranch(b)])
    ensures fn in files ==> files' == files
    ensures fn !in files ==> fn in files' && fresh(files'[fn]) && files' == files[fn := files'[fn]]
  {
    var file;
    keys', files', file := Fetch(keys, files, fn, states);
    file := file.AddBranch(b);
  }

  /**
   * The state between the loops of `transformLcovMap`: `keys` lists, once each, the keys of the
   * routed entries `routedKeys`, and `files` holds for each of them a record with the state in
   * `states`, which is what the routed entries so far build.
   */
  ghost predicate Stage(keys: seq<string>, files: map<string, OutputFile>, states: map<string, FileState>,
                        routedKeys: seq<string>, rf: seq<Routed<LcovFunc>>, rl: seq<Routed<LcovLine>>,
                        rb: seq<Routed<LcovBranch>>)
    reads files.Values
  {
    && keys == Dedup(routedKeys)
    && (forall k :: k in states <==> k in keys) && Tracks(files, states) && Holds(states, rf, rl, rb)
  }

  /** The callback of the first `_.each` of `transformLcovMap`, applied to the function entry `fns[i]`. */
  method OnFunction(fns: seq<LcovFunc>, i: nat, sourcemap: SourcemapFile, sourceDir: string, paths: PathOps,
                    keys: seq<string>, files: map<string, OutputFile>,
                    ghost states: map<string, FileState>, ghost rf: seq<Routed<LcovFunc>>)
    returns (keys': seq<string>, files': map<string, OutputFile>,
             ghost states': map<string, FileState>, ghost rf': seq<Routed<LcovFunc>>)
    requires i < |fns| && rf == RouteAll(fns[..i], FuncLine, FuncAt, Router(sourcemap, sourceDir, paths))
    requires keys == Dedup(KeysOf(rf))
    requires (forall k :: k in states <==> k in keys) && Tracks(files, states) && Holds(states, rf, [], [])
    modifies files.Values
    ensures rf' == RouteAll(fns[..i + 1], FuncLine, FuncAt, Router(sourcemap, sourceDir, paths))
    ensures keys' == Dedup(KeysOf(rf'))
    ensures (forall k :: k in states' <==> k in keys') && Tracks(files', states') && Holds(states', rf', [], [])
    ensures files' == files || exists fn :: fn in files' && fn !in files && fresh(files'[fn]) && files' == files[fn := files'[fn]]
  {
    keys', files', states', rf' := keys, files, states, rf;
    var func := fns[i];
    var source := sourcemap.consumer.originalPositionFor(func.line);
    if source.Some? && Truthy(source.value.source) {
      var fn := FileKey(sourcemap, sourceDir, paths, source.value.source.value);
      var f := LcovFunc(func.name, source.value.line, func.hit);
      RouteStepSome(fns, i, FuncLine, FuncAt, sourcemap, sourceDir, paths, rf, Target(fn, source.value.line));
      HoldsAddFunction(states, fn, f, rf, [], []);
      KeysStepFirst(rf, Routed(fn, f));
      keys', files' := PlaceFunction(keys, files, fn, f, states);
      states' := states[fn := Current(states, fn).AddFunction(f)];
      rf' := rf + [Routed(fn, f)];
    } else {
      RouteStepNone(fns, i, FuncLine, FuncAt, sourcemap, sourceDir, paths, rf);
    }
  }

  /** The first `_.each` of `transformLcovMap`: routes the function entries into new records. */
  method EachFunction(lcov: LcovFile, sourcemap: SourcemapFile, sourceDir: string, paths: PathOps)
    returns (keys: seq<string>, files: map<string, OutputFile>, ghost states: map<string, FileState>)
    ensures var rf := RoutedFunctions(lcov, sourcemap, sourceDir, paths); Stage(keys, files, states, KeysOf(rf), rf, [], [])
    ensures forall k :: k in files ==> fresh(files[k])
  {
    keys, files, states := [], map[], map[];
    ghost var rf: seq<Routed<LcovFunc>> := [];
    var fns := lcov.functions.details;
    for i := 0 to |fns|
      invariant rf == RouteAll(fns[..i], FuncLine, FuncAt, Router(sourcemap, sourceDir, paths))
      invariant keys == Dedup(KeysOf(rf))
      invariant (forall k :: k in states <==> k in keys) && Tracks(files, states) && Holds(states, rf, [], [])
      invariant forall k :: k in files ==> fresh(files[k])
    {
      keys, files, states, rf := OnFunction(fns, i, sourcemap, sourceDir, paths, keys, files, states, rf);
    }
    assert fns[..|fns|] == fns;
  }

  /** The callback of the second `_.each`, applied to the line entry `lns[i]`. */
  method OnLine(lns: seq<LcovLine>, i: nat, sourcemap: SourcemapFile, sourceDir: string, paths: PathOps,
                keys: seq<string>, files: map<string, OutputFile>,
                ghost states: map<string, FileState>, ghost rf: seq<Routed<LcovFunc>>, ghost rl: seq<Routed<LcovLine>>)
    returns (keys': seq<string>, files': map<string, OutputFile>,
             ghost states': map<string, FileState>, ghost rl': seq<Routed<LcovLine>>)
    requires i < |lns| && rl == RouteAll(lns[..i], LineLine, LineAt, Router(sourcemap, sourceDir, paths))
    requires keys == Dedup(KeysOf(rf) + KeysOf(rl))
    requires (forall k :: k in states <==> k in keys) && Tracks(files, states) && Holds(states, rf, rl, [])
    modifies files.Values
    ensures rl' == RouteAll(lns[..i + 1], LineLine, LineAt, Router(sourcemap, sourceDir, paths))
    ensures keys' == Dedup(KeysOf(rf) + KeysOf(rl'))
    ensures (forall k :: k in states' <==> k in keys') && Tracks(files', states') && Holds(states', rf, rl', [])
    ensures files' == files || exists fn :: fn in files' && fn !in files && fresh(files'[fn]) && files' == files[fn := files'[fn]]
  {
    keys', files', states', rl' := keys, files, states, rl;
    var line := lns[i];
    var source := sourcemap.consumer.originalPositionFor(line.line);
    if source.Some? && Truthy(source.value.source) {
      var fn := FileKey(sourcemap, sourceDir, paths, source.value.source.value);
      var l := LcovLine(source.value.line, line.hit);
      RouteStepSome(lns, i, LineLine, LineAt, sourcemap, sourceDir, paths, rl, Target(fn, source.value.line));
      HoldsAddLine(states, fn, l, rf, rl, []);
      KeysStep(KeysOf(rf), rl, Routed(fn, l));
      keys', files' := PlaceLine(keys, files, fn, l, states);
      states' := states[fn := Current(states, fn).AddLine(l)];
      rl' := rl + [Routed(fn, l)];
    } else {
      RouteStepNone(lns, i, LineLine, LineAt, sourcemap, sourceDir, paths, rl);
    }
  }

  /** The second `_.each`: routes the line entries, on top of the records built so far. */
  method EachLine(lcov: LcovFile, sourcemap: SourcemapFile, sourceDir: string, paths: PathOps,
                  keys0: seq<string>, files0: map<string, OutputFile>, ghost states0: map<string, FileState>,
                  ghost rf: seq<Routed<LcovFunc>>)
    returns (keys: seq<string>, files: map<string, OutputFile>, ghost states: map<string, FileState>)
    requires Stage(keys0, files0, states0, KeysOf(rf), rf, [], [])
    modifies files0.Values
    ensures var rl := RoutedLines(lcov, sourcemap, sourceDir, paths); Stage(keys, files, states, KeysOf(rf) + KeysOf(rl), rf, rl, [])
    ensures forall k :: k in files ==> (k in files0 && files[k] == files0[k]) || fresh(files[k])
  {
    keys, files, states := keys0, files0, states0;
    ghost var rl: seq<Routed<LcovLine>> := [];
    assert KeysOf(rf) + KeysOf(rl) == KeysOf(rf);
    var lns := lcov.lines.details;
    for i := 0 to |lns|
      invariant rl == RouteAll(lns[..i], LineLine, LineAt, Router(sourcemap, sourceDir, paths))
      invariant keys == Dedup(KeysOf(rf) + KeysOf(rl))
      invariant (forall k :: k in states <==> k in keys) && Tracks(files, states) && Holds(states, rf, rl, [])
      invariant forall k :: k in files ==> (k in files0 && files[k] == files0[k]) || fresh(files[k])
    {
      keys, files, states, rl := OnLine(lns, i, sourcemap, sourceDir, paths, keys, files, states, rf, rl);
    }
    assert lns[..|lns|] == lns;
  }

  /** The callback of the third `_.each`, applied to the branch entry `brs[i]`. */
  method OnBranch(brs: seq<LcovBranch>, i: nat, sourcemap: SourcemapFile, sourceDir: string, paths: PathOps,
                  keys: seq<string>, files: map<string, OutputFile>, ghost states: map<string, FileState>,
                  ghost rf: seq<Routed<LcovFunc>>, ghost rl: seq<Routed<LcovLine>>, ghost rb: seq<Routed<LcovBranch>>)
    returns (keys': seq<string>, files': map<string, OutputFile>,
             ghost states': map<string, FileState>, ghost rb': seq<Routed<LcovBranch>>)
    requires i < |brs| && rb == RouteAll(brs[..i], BranchLine, BranchAt, Router(sourcemap, sourceDir, paths))
    requires keys == Dedup(KeysOf(rf) + KeysOf(rl) + KeysOf(rb))
    requires (forall k :: k in states <==> k in keys) && Tracks(files, states) && Holds(states, rf, rl, rb)
    modifies files.Values
    ensures rb' == RouteAll(brs[..i + 1], BranchLine, BranchAt, Router(sourcemap, sourceDir, paths))
    ensures keys' == Dedup(KeysOf(rf) + KeysOf(rl) + KeysOf(rb'))
    ensures (forall k :: k in states' <==> k in keys') && Tracks(files', states') && Holds(states', rf, rl, rb')
    ensures files' == files || exists fn :: fn in files' && fn !in files && fresh(files'[fn]) && files' == files[fn := files'[fn]]
  {
    keys', files', states', rb' := keys, files, states, rb;
    var branch := brs[i];
    var source := sourcemap.consumer.originalPositionFor(branch.line);
    if source.Some? && Truthy(source.value.source) {
      var fn := FileKey(sourcemap, sourceDir, paths, source.value.source.value);
      var b := LcovBranch(source.value.line, branch.block, branch.branch, branch.taken);
      RouteStepSome(brs, i, BranchLine, BranchAt, sourcemap, sourceDir, paths, rb, Target(fn, source.value.line));
      HoldsAddBranch(states, fn, b, rf, rl, rb);
      KeysStep(KeysOf(rf) + KeysOf(rl), rb, Routed(fn, b));
      keys', files' := PlaceBranch(keys, files, fn, b, states);
      states' := states[fn := Current(states, fn).AddBranch(b)];
      rb' := rb + [Routed(fn, b)];
    } else {
      RouteStepNone(brs, i, BranchLine, BranchAt, sourcemap, sourceDir, paths, rb);
    }
  }

  /** The third `_.each`: routes the branch entries, on top of the records built so far. */
  method EachBranch(lcov: LcovFile, sourcemap: SourcemapFile, sourceDir: string, paths: PathOps,
                    keys0: seq<string>, files0: map<string, OutputFile>, ghost states0: map<string, FileState>,
                    ghost rf: seq<Routed<LcovFunc>>, ghost rl: seq<Routed<LcovLine>>)
    returns (keys: seq<string>, files: map<string, OutputFile>, ghost states: map<string, FileState>)
    requires Stage(keys0, files0, states0, KeysOf(rf) + KeysOf(rl), rf, rl, [])
    modifies files0.Values
    ensures var rb := RoutedBranches(lcov, sourcemap, sourceDir, paths); Stage(keys, files, states, KeysOf(rf) + KeysOf(rl) + KeysOf(rb), rf, rl, rb)
    ensures forall k :: k in files ==> (k in files0 && files[k] == files0[k]) || fresh(files[k])
  {
    keys, files, states := keys0, files0, states0;
    ghost var rb: seq<Routed<LcovBranch>> := [];
    assert KeysOf(rf) + KeysOf(rl) + KeysOf(rb) == KeysOf(rf) + KeysOf(rl);
    var brs := lcov.branches.details;
    for i := 0 to |brs|
      invariant rb == RouteAll(brs[..i], BranchLine, BranchAt, Router(sourcemap, sourceDir, paths))
      invariant keys == Dedup(KeysOf(rf) + KeysOf(rl) + KeysOf(rb))
      invariant (forall k :: k in states <==> k in keys) && Tracks(files, states) && Holds(states, rf, rl, rb)
      invariant forall k :: k in files ==> (k in files0 && files[k] == files0[k]) || fresh(files[k])
    {
      keys, files, states, rb := OnBranch(brs, i, sourcemap, sourceDir, paths, keys, files, states, rf, rl, rb);
    }
    assert brs[..|brs|] == brs;
  }

  /**
   * `transformLcovMap`: the function, then the line, then the branch entries of `lcov` are routed;
   * every entry whose generated line resolves to a source is added, at its original line, to the
   * record of its key. `keys` lists the keys of the result in insertion order.
   */
  method TransformLcovMap(lcov: LcovFile, sourcemap: SourcemapFile, sourceDir: string, paths: PathOps)
    returns (keys: seq<string>, files: map<string, OutputFile>)
    ensures keys == OutputKeys(lcov, sourcemap, sourceDir, paths)
    ensures forall k :: k in files <==> k in keys
    ensures forall k :: k in files ==> fresh(files[k])
    ensures forall k, k' :: k in files && k' in files && k != k' ==> files[k] != files[k']
    ensures forall k :: k in files ==> files[k].State() == RecordFor(k, lcov, sourcemap, sourceDir, paths)
  {
    ghost var states;
    keys, files, states := EachFunction(lcov, sourcemap, sourceDir, paths);
    ghost var rf := RoutedFunctions(lcov, sourcemap, sourceDir, paths);
    keys, files, states := EachLine(lcov, sourcemap, sourceDir, paths, keys, files, states, rf);
    ghost var rl := RoutedLines(lcov, sourcemap, sourceDir, paths);
    keys, files, states := EachBranch(lcov, sourcemap, sourceDir, paths, keys, files, states, rf, rl);
  }
}
