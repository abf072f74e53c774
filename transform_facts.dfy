/**
 * What `transformLcovMap` promises about its result: which keys it has, where each input
 * entry goes and where each output entry comes from, that unresolved entries leave no trace,
 * and that the counts and hit sums of the resolved entries are conserved.
 */
module TransformFacts {
  import opened Wrappers
  import opened Seqs
  import opened Lcov
  import opened File
  import opened PathKey
  import opened Routing
  import opened Transform

  /** The generated line `line` resolves to a source whose key is `k`. */
  predicate ResolvesTo(sm: SourcemapFile, sourceDir: string, paths: PathOps, line: int, k: string)
  {
    Route(sm, sourceDir, paths, line).Some? && Route(sm, sourceDir, paths, line).value.key == k
  }

  /** The tallies of one record, as weights for summing over all records. */
  function FunctionsFound(r: FileState): int { r.functions.found }
  function FunctionsHit(r: FileState): int { r.functions.hit }
  function LinesFound(r: FileState): int { r.lines.found }
  function LinesHit(r: FileState): int { r.lines.hit }
  function BranchesFound(r: FileState): int { r.branches.found }
  function BranchesHit(r: FileState): int { r.branches.hit }

  /** A key is in the result exactly when some function, line or branch entry resolves to it. */
  lemma KeysAreResolved(lcov: LcovFile, sm: SourcemapFile, sourceDir: string, paths: PathOps, k: string)
    ensures var fns, lns, brs := lcov.functions.details, lcov.lines.details, lcov.branches.details;
      k in OutputKeys(lcov, sm, sourceDir, paths) <==>
        || (exists j :: 0 <= j < |fns| && ResolvesTo(sm, sourceDir, paths, fns[j].line, k))
        || (exists j :: 0 <= j < |lns| && ResolvesTo(sm, sourceDir, paths, lns[j].line, k))
        || (exists j :: 0 <= j < |brs| && ResolvesTo(sm, sourceDir, paths, brs[j].line, k))
  {
    var route := Router(sm, sourceDir, paths);
    KeysOfRouteAll(lcov.functions.details, FuncLine, FuncAt, route, k);
    KeysOfRouteAll(lcov.lines.details, LineLine, LineAt, route, k);
    KeysOfRouteAll(lcov.branches.details, BranchLine, BranchAt, route, k);
  }

  /** The result lists each key once, and every record is filed under its own path. */
  lemma KeysDistinct(lcov: LcovFile, sm: SourcemapFile, sourceDir: string, paths: PathOps)
    ensures Distinct(OutputKeys(lcov, sm, sourceDir, paths))
    ensures forall k :: k in OutputKeys(lcov, sm, sourceDir, paths) ==> RecordFor(k, lcov, sm, sourceDir, paths).path == k
  {
  }

  /**
   * Each record of the result is consistent: its `found` fields count its entries and its `hit`
   * fields sum them, so the totals lines it prints agree with its `FN`, `DA` and `BRDA` lines.
   */
  lemma RecordTotals(lcov: LcovFile, sm: SourcemapFile, sourceDir: string, paths: PathOps, k: string)
    ensures var st := RecordFor(k, lcov, sm, sourceDir, paths);
      var r, nf, nl, nb := st.Serialize(), |st.functions.details|, |st.lines.details|, |st.branches.details|;
      && st.Valid()
      && r[2 + nf] == Total("FNF", nf)
      && r[3 + nf] == Total("FNH", SumW(st.functions.details, FuncHit))
      && r[4 + 2 * nf + nl] == Total("LF", nl)
      && r[5 + 2 * nf + nl] == Total("LH", SumW(st.lines.details, LineHit))
      && r[6 + 2 * nf + nl + nb] == Total("BRF", nb)
      && r[7 + 2 * nf + nl + nb] == Total("BRH", SumW(st.branches.details, BranchTaken))
  {
    TotalsOfValid(RecordFor(k, lcov, sm, sourceDir, paths));
  }

  /** A resolved function entry is in the record of its key, at its original line, with its name and hit count. */
  lemma FunctionLands(lcov: LcovFile, sm: SourcemapFile, sourceDir: string, paths: PathOps, j: nat, t: Target)
    requires j < |lcov.functions.details|
    requires Route(sm, sourceDir, paths, lcov.functions.details[j].line) == Some(t)
    ensures var f := lcov.functions.details[j];
      && t.key in OutputKeys(lcov, sm, sourceDir, paths)
      && LcovFunc(f.name, t.line, f.hit) in RecordFor(t.key, lcov, sm, sourceDir, paths).functions.details
  {
    EntryLands(lcov.functions.details, j, FuncLine, FuncAt, Router(sm, sourceDir, paths));
    KeysAreResolved(lcov, sm, sourceDir, paths, t.key);
  }

  lemma LineLands(lcov: LcovFile, sm: SourcemapFile, sourceDir: string, paths: PathOps, j: nat, t: Target)
    requires j < |lcov.lines.details|
    requires Route(sm, sourceDir, paths, lcov.lines.details[j].line) == Some(t)
    ensures var l := lcov.lines.details[j];
      && t.key in OutputKeys(lcov, sm, sourceDir, paths)
      && LcovLine(t.line, l.hit) in RecordFor(t.key, lcov, sm, sourceDir, paths).lines.details
  {
    EntryLands(lcov.lines.details, j, LineLine, LineAt, Router(sm, sourceDir, paths));
    KeysAreResolved(lcov, sm, sourceDir, paths, t.key);
  }

  /** A resolved branch entry keeps its block, branch and taken count. */
  lemma BranchLands(lcov: LcovFile, sm: SourcemapFile, sourceDir: string, paths: PathOps, j: nat, t: Target)
    requires j < |lcov.branches.details|
    requires Route(sm, sourceDir, paths, lcov.branches.details[j].line) == Some(t)
    ensures var b := lcov.branches.details[j];
      && t.key in OutputKeys(lcov, sm, sourceDir, paths)
      && LcovBranch(t.line, b.block, b.branch, b.taken) in RecordFor(t.key, lcov, sm, sourceDir, paths).branches.details
  {
    EntryLands(lcov.branches.details, j, BranchLine, BranchAt, Router(sm, sourceDir, paths));
    KeysAreResolved(lcov, sm, sourceDir, paths, t.key);
  }

  /** Every function entry of a record is an input entry that resolves to that record's key, relocated. */
  lemma FunctionSource(lcov: LcovFile, sm: SourcemapFile, sourceDir: string, paths: PathOps, k: string, x: LcovFunc)
    requires x in RecordFor(k, lcov, sm, sourceDir, paths).functions.details
    ensures var fns := lcov.functions.details;
      exists j :: 0 <= j < |fns| && Route(sm, sourceDir, paths, fns[j].line) == Some(Target(k, x.line))
        && x == LcovFunc(fns[j].name, x.line, fns[j].hit)
  {
    EntrySource(lcov.functions.details, FuncLine, FuncAt, Router(sm, sourceDir, paths), k, x);
  }

  lemma LineSource(lcov: LcovFile, sm: SourcemapFile, sourceDir: string, paths: PathOps, k: string, x: LcovLine)
    requires x in RecordFor(k, lcov, sm, sourceDir, paths).lines.details
    ensures var lns := lcov.lines.details;
      exists j :: 0 <= j < |lns| && Route(sm, sourceDir, paths, lns[j].line) == Some(Target(k, x.line))
        && x == LcovLine(x.line, lns[j].hit)
  {
    EntrySource(lcov.lines.details, LineLine, LineAt, Router(sm, sourceDir, paths), k, x);
  }

  lemma BranchSource(lcov: LcovFile, sm: SourcemapFile, sourceDir: string, paths: PathOps, k: string, x: LcovBranch)
    requires x in RecordFor(k, lcov, sm, sourceDir, paths).branches.details
    ensures var brs := lcov.branches.details;
      exists j :: 0 <= j < |brs| && Route(sm, sourceDir, paths, brs[j].line) == Some(Target(k, x.line))
        && x == LcovBranch(x.line, brs[j].block, brs[j].branch, brs[j].taken)
  {
    EntrySource(lcov.branches.details, BranchLine, BranchAt, Router(sm, sourceDir, paths), k, x);
  }

  /** Removing a function entry whose line does not resolve leaves the result unchanged. */
  lemma UnresolvedFunctionDropped(lcov: LcovFile, sm: SourcemapFile, sourceDir: string, paths: PathOps,
                                  a: seq<LcovFunc>, e: LcovFunc, b: seq<LcovFunc>)
    requires lcov.functions.details == a + [e] + b
    requires Route(sm, sourceDir, paths, e.line).None?
    ensures Transformed(lcov, sm, sourceDir, paths)
      == Transformed(lcov.(functions := lcov.functions.(details := a + b)), sm, sourceDir, paths)
  {
    DropUnresolvable(a, e, b, FuncLine, FuncAt, Router(sm, sourceDir, paths));
  }

  lemma UnresolvedLineDropped(lcov: LcovFile, sm: SourcemapFile, sourceDir: string, paths: PathOps,
                              a: seq<LcovLine>, e: LcovLine, b: seq<LcovLine>)
    requires lcov.lines.details == a + [e] + b
    requires Route(sm, sourceDir, paths, e.line).None?
    ensures Transformed(lcov, sm, sourceDir, paths)
      == Transformed(lcov.(lines := lcov.lines.(details := a + b)), sm, sourceDir, paths)
  {
    DropUnresolvable(a, e, b, LineLine, LineAt, Router(sm, sourceDir, paths));
  }

  lemma UnresolvedBranchDropped(lcov: LcovFile, sm: SourcemapFile, sourceDir: string, paths: PathOps,
                                a: seq<LcovBranch>, e: LcovBranch, b: seq<LcovBranch>)
    requires lcov.branches.details == a + [e] + b
    requires Route(sm, sourceDir, paths, e.line).None?
    ensures Transformed(lcov, sm, sourceDir, paths)
      == Transformed(lcov.(branches := lcov.branches.(details := a + b)), sm, sourceDir, paths)
  {
    DropUnresolvable(a, e, b, BranchLine, BranchAt, Router(sm, sourceDir, paths));
  }

  /**
   * Conservation of the function entries: over all records of the result, the `found` counts add
   * up to the number of function entries that resolve and the `hit` sums to their summed hits.
   */
  lemma FunctionsConserved(lcov: LcovFile, sm: SourcemapFile, sourceDir: string, paths: PathOps)
    ensures var out := Transformed(lcov, sm, sourceDir, paths);
      var res := Resolving(lcov.functions.details, FuncLine, Router(sm, sourceDir, paths));
      SumW(out, FunctionsFound) == |res| && SumW(out, FunctionsHit) == SumW(res, FuncHit)
  {
    var ks, rf := OutputKeys(lcov, sm, sourceDir, paths), RoutedFunctions(lcov, sm, sourceDir, paths);
    var s, route := lcov.functions.details, Router(sm, sourceDir, paths);
    var rec := RecordOf(lcov, sm, sourceDir, paths);
    forall k | k in ks ensures PerKey(rf, One)(k) == FunctionsFound(rec(k)) {
      SumWOne(Only(k, rf));
    }
    SumWImage(ks, rec, FunctionsFound, PerKey(rf, One));
    GroupConservation(ks, s, FuncLine, FuncAt, route, One);
    SumWOne(Resolving(s, FuncLine, route));
    SumWImage(ks, rec, FunctionsHit, PerKey(rf, FuncHit));
    GroupConservation(ks, s, FuncLine, FuncAt, route, FuncHit);
  }

  /** The same for the line entries. */
  lemma LinesConserved(lcov: LcovFile, sm: SourcemapFile, sourceDir: string, paths: PathOps)
    ensures var out := Transformed(lcov, sm, sourceDir, paths);
      var res := Resolving(lcov.lines.details, LineLine, Router(sm, sourceDir, paths));
      SumW(out, LinesFound) == |res| && SumW(out, LinesHit) == SumW(res, LineHit)
  {
    var ks, rl := OutputKeys(lcov, sm, sourceDir, paths), RoutedLines(lcov, sm, sourceDir, paths);
    var s, route := lcov.lines.details, Router(sm, sourceDir, paths);
    var rec := RecordOf(lcov, sm, sourceDir, paths);
    forall k | k in ks ensures PerKey(rl, One)(k) == LinesFound(rec(k)) {
      SumWOne(Only(k, rl));
    }
    SumWImage(ks, rec, LinesFound, PerKey(rl, One));
    GroupConservation(ks, s, LineLine, LineAt, route, One);
    SumWOne(Resolving(s, LineLine, route));
    SumWImage(ks, rec, LinesHit, PerKey(rl, LineHit));
    GroupConservation(ks, s, LineLine, LineAt, route, LineHit);
  }

  /** The same for the branch entries, whose `hit` sums the taken counts. */
  lemma BranchesConserved(lcov: LcovFile, sm: SourcemapFile, sourceDir: string, paths: PathOps)
    ensures var out := Transformed(lcov, sm, sourceDir, paths);
      var res := Resolving(lcov.branches.details, BranchLine, Router(sm, sourceDir, paths));
      SumW(out, BranchesFound) == |res| && SumW(out, BranchesHit) == SumW(res, BranchTaken)
  {
    var ks, rb := OutputKeys(lcov, sm, sourceDir, paths), RoutedBranches(lcov, sm, sourceDir, paths);
    var s, route := lcov.branches.details, Router(sm, sourceDir, paths);
    var rec := RecordOf(lcov, sm, sourceDir, paths);
    forall k | k in ks ensures PerKey(rb, One)(k) == BranchesFound(rec(k)) {
      SumWOne(Only(k, rb));
    }
    SumWImage(ks, rec, BranchesFound, PerKey(rb, One));
    GroupConservation(ks, s, BranchLine, BranchAt, route, One);
    SumWOne(Resolving(s, BranchLine, route));
    SumWImage(ks, rec, BranchesHit, PerKey(rb, BranchTaken));
    GroupConservation(ks, s, BranchLine, BranchAt, route, BranchTaken);
  }
}
