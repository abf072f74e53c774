/**
 * The per-file coverage accumulator (`OutputFile`) and its LCOV serialisation.
 * `FileState` is the abstract value of an accumulator; `Serialize` is the list of
 * output lines that `OutputFile.ToString` joins with newlines.
 */
module File {
  import opened Seqs
  import opened Strings
  import opened Lcov

  datatype FileState = FileState(
    path: string,
    functions: HitGroup<LcovFunc>,
    lines: HitGroup<LcovLine>,
    branches: HitGroup<LcovBranch>)
  {
    /** In every group `found` counts the entries and `hit` sums their hits (taken counts for branches). */
    predicate Valid()
    {
      Tallies(functions, FuncHit) && Tallies(lines, LineHit) && Tallies(branches, BranchTaken)
    }

    function AddFunction(f: LcovFunc): (r: FileState)
      ensures r.functions.found == functions.found + 1 && r.functions.hit == functions.hit + f.hit
      ensures r.functions.details == functions.details + [f]
      ensures r.path == path && r.lines == lines && r.branches == branches
      ensures Valid() ==> r.Valid()
    {
      SumWAppend(functions.details, f, FuncHit);
      this.(functions := HitGroup(functions.found + 1, functions.hit + f.hit, functions.details + [f]))
    }

    function AddLine(l: LcovLine): (r: FileState)
      ensures r.lines.found == lines.found + 1 && r.lines.hit == lines.hit + l.hit
      ensures r.lines.details == lines.details + [l]
      ensures r.path == path && r.functions == functions && r.branches == branches
      ensures Valid() ==> r.Valid()
    {
      SumWAppend(lines.details, l, LineHit);
      this.(lines := HitGroup(lines.found + 1, lines.hit + l.hit, lines.details + [l]))
    }

    /** Only the taken count of a branch goes into `branches.hit`. */
    function AddBranch(b: LcovBranch): (r: FileState)
      ensures r.branches.found == branches.found + 1 && r.branches.hit == branches.hit + b.taken
      ensures r.branches.details == branches.details + [b]
      ensures r.path == path && r.functions == functions && r.lines == lines
      ensures Valid() ==> r.Valid()
    {
      SumWAppend(branches.details, b, BranchTaken);
      this.(branches := HitGroup(branches.found + 1, branches.hit + b.taken, branches.details + [b]))
    }

    /**
     * The LCOV record, one string per output line, in the fixed field order. A record has
     * `2 + (2·|functions| + 2) + (|lines| + 2) + (|branches| + 2) + 1` lines, the first two
     * being `TN:` and `SF:<path>` and the last `end_of_record`.
     */
    function Serialize(): (r: seq<string>)
      ensures |r| == 2 * |functions.details| + |lines.details| + |branches.details| + 9
      ensures r[0] == "TN:" && r[1] == "SF:" + path && r[|r| - 1] == "end_of_record"
    {
      assert |FunctionSection(functions)| == 2 * |functions.details| + 2;
      Header(path) + (FunctionSection(functions) + (LineSection(lines) + (BranchSection(branches)
      + ["end_of_record"])))
    }
  }

  function Header(path: string): seq<string> { ["TN:", "SF:" + path] }

  /** A totals line such as `LF:3`. */
  function Total(tag: string, n: int): string { tag + ":" + IntToString(n) }

  /** `FN` lines, the `FNF`/`FNH` totals, then `FNDA` lines in the same order. */
  function FunctionSection(g: HitGroup<LcovFunc>): seq<string>
  {
    Image(g.details, FnDefLine) + [Total("FNF", g.found), Total("FNH", g.hit)]
    + Image(g.details, FnHitLine)
  }

  /** `DA` lines, then the `LF`/`LH` totals. */
  function LineSection(g: HitGroup<LcovLine>): seq<string>
  {
    Image(g.details, DaLine) + [Total("LF", g.found), Total("LH", g.hit)]
  }

  /** `BRDA` lines, then the `BRF`/`BRH` totals. */
  function BranchSection(g: HitGroup<LcovBranch>): seq<string>
  {
    Image(g.details, BrdaLine) + [Total("BRF", g.found), Total("BRH", g.hit)]
  }

  /** The state of a newly constructed accumulator for `path`. */
  function Empty(path: string): (st: FileState)
    ensures st.Valid() && st.path == path
    ensures st.functions.found == 0 && st.functions.hit == 0 && st.functions.details == []
    ensures st.lines.found == 0 && st.lines.hit == 0 && st.lines.details == []
    ensures st.branches.found == 0 && st.branches.hit == 0 && st.branches.details == []
  {
    FileState(path, HitGroup(0, 0, []), HitGroup(0, 0, []), HitGroup(0, 0, []))
  }

  function FnDefLine(f: LcovFunc): string { "FN:" + IntToString(f.line) + "," + f.name }
  function FnHitLine(f: LcovFunc): string { "FNDA:" + IntToString(f.hit) + "," + f.name }
  function DaLine(l: LcovLine): string { "DA:" + IntToString(l.line) + "," + IntToString(l.hit) }
  function BrdaLine(b: LcovBranch): string
  {
    "BRDA:" + IntToString(b.line) + "," + IntToString(b.block) + "," + IntToString(b.branch)
    + "," + IntToString(b.taken)
  }

  lemma SectionsJoined(h: seq<string>, fs: seq<string>, ls: seq<string>, bs: seq<string>, out: seq<string>)
    requires out == h + fs + ls + bs + ["end_of_record"]
    ensures out == h + (fs + (ls + (bs + ["end_of_record"])))
  {
  }

  lemma FunctionSectionBuilt(header: seq<string>, g: HitGroup<LcovFunc>, totals: seq<string>, out: seq<string>)
    requires totals == header + Image(g.details, FnDefLine) + [Total("FNF", g.found)] + [Total("FNH", g.hit)]
    requires out == totals + Image(g.details, FnHitLine)
    ensures out == header + FunctionSection(g)
  {
  }

  lemma LineSectionBuilt(before: seq<string>, g: HitGroup<LcovLine>, out: seq<string>)
    requires out == before + Image(g.details, DaLine) + [Total("LF", g.found)] + [Total("LH", g.hit)]
    ensures out == before + LineSection(g)
  {
  }

  lemma BranchSectionBuilt(before: seq<string>, g: HitGroup<LcovBranch>, out: seq<string>)
    requires out == before + Image(g.details, BrdaLine) + [Total("BRF", g.found)] + [Total("BRH", g.hit)]
    ensures out == before + BranchSection(g)
  {
  }

  /** `r` holds, from offset `o`, the `FN` lines, `FNF`, `FNH` and the `FNDA` lines of `g`, in detail order. */
  predicate FunctionsAt(r: seq<string>, o: nat, g: HitGroup<LcovFunc>)
  {
    var n := |g.details|;
    && o + 2 * n + 2 <= |r|
    && (forall i :: 0 <= i < n ==> r[o + i] == FnDefLine(g.details[i]))
    && r[o + n] == Total("FNF", g.found)
    && r[o + n + 1] == Total("FNH", g.hit)
    && (forall i :: 0 <= i < n ==> r[o + n + 2 + i] == FnHitLine(g.details[i]))
  }

  /** `r` holds, from offset `o`, the `DA` lines of `g` in detail order, then `LF` and `LH`. */
  predicate LinesAt(r: seq<string>, o: nat, g: HitGroup<LcovLine>)
  {
    var n := |g.details|;
    && o + n + 2 <= |r|
    && (forall i :: 0 <= i < n ==> r[o + i] == DaLine(g.details[i]))
    && r[o + n] == Total("LF", g.found)
    && r[o + n + 1] == Total("LH", g.hit)
  }

  /** `r` holds, from offset `o`, the `BRDA` lines of `g` in detail order, then `BRF` and `BRH`. */
  predicate BranchesAt(r: seq<string>, o: nat, g: HitGroup<LcovBranch>)
  {
    var n := |g.details|;
    && o + n + 2 <= |r|
    && (forall i :: 0 <= i < n ==> r[o + i] == BrdaLine(g.details[i]))
    && r[o + n] == Total("BRF", g.found)
    && r[o + n + 1] == Total("BRH", g.hit)
  }

  /** The function section, on its own, has exactly the layout `FunctionsAt` describes. */
  lemma FunctionSectionLayout(g: HitGroup<LcovFunc>)
    ensures |FunctionSection(g)| == 2 * |g.details| + 2 && FunctionsAt(FunctionSection(g), 0, g)
  {
  }

  /** The line section, on its own, has exactly the layout `LinesAt` describes. */
  lemma LineSectionLayout(g: HitGroup<LcovLine>)
    ensures |LineSection(g)| == |g.details| + 2 && LinesAt(LineSection(g), 0, g)
  {
  }

  /** The branch section, on its own, has exactly the layout `BranchesAt` describes. */
  lemma BranchSectionLayout(g: HitGroup<LcovBranch>)
    ensures |BranchSection(g)| == |g.details| + 2 && BranchesAt(BranchSection(g), 0, g)
  {
  }

  /** A function section keeps its layout wherever it is placed. */
  lemma FunctionsIn(h: seq<string>, g: HitGroup<LcovFunc>, rest: seq<string>)
    ensures FunctionsAt(h + (FunctionSection(g) + rest), |h|, g)
  {
    var s, r := FunctionSection(g), h + (FunctionSection(g) + rest);
    FunctionSectionLayout(g);
    forall i | 0 <= i < |s| ensures r[|h| + i] == s[i] {
      assert r[|h| + i] == (s + rest)[i];
    }
  }

  lemma LinesIn(h: seq<string>, f: seq<string>, g: HitGroup<LcovLine>, rest: seq<string>)
    ensures LinesAt(h + (f + (LineSection(g) + rest)), |h| + |f|, g)
  {
    var s, r := LineSection(g), h + (f + (LineSection(g) + rest));
    LineSectionLayout(g);
    forall i | 0 <= i < |s| ensures r[|h| + |f| + i] == s[i] {
      Nest(h, f, s, rest, i);
    }
  }

  lemma BranchesIn(h: seq<string>, f: seq<string>, l: seq<string>, g: HitGroup<LcovBranch>, rest: seq<string>)
    ensures BranchesAt(h + (f + (l + (BranchSection(g) + rest))), |h| + |f| + |l|, g)
  {
    var s, r := BranchSection(g), h + (f + (l + (BranchSection(g) + rest)));
    BranchSectionLayout(g);
    forall i | 0 <= i < |s| ensures r[|h| + |f| + |l| + i] == s[i] {
      Nest4(h, f, l, s, rest, i);
    }
  }

  /** After the header come the `FN` lines, the `FNF`/`FNH` totals and the `FNDA` lines, in detail order. */
  lemma SerializeFunctions(st: FileState)
    ensures var r, nf := st.Serialize(), |st.functions.details|;
      && |r| > 4 + 2 * nf
      && (forall i :: 0 <= i < nf ==> r[2 + i] == FnDefLine(st.functions.details[i]))
      && r[2 + nf] == Total("FNF", st.functions.found)
      && r[3 + nf] == Total("FNH", st.functions.hit)
      && (forall i :: 0 <= i < nf ==> r[4 + nf + i] == FnHitLine(st.functions.details[i]))
  {
    FunctionsOfRecord(st);
  }

  /** The function section of a serialized record sits at its offset, after everything before it. */
  lemma FunctionsOfRecord(st: FileState)
    ensures FunctionsAt(st.Serialize(), 2, st.functions)
  {
    FunctionsIn(Header(st.path), st.functions, LineSection(st.lines) + (BranchSection(st.branches) + ["end_of_record"]));
  }

  /** The `DA` lines follow the function section in detail order, then `LF` and `LH`. */
  lemma SerializeLines(st: FileState)
    ensures var r, nf, nl := st.Serialize(), |st.functions.details|, |st.lines.details|;
      var o := 4 + 2 * nf;
      && |r| > o + nl + 1
      && (forall i :: 0 <= i < nl ==> r[o + i] == DaLine(st.lines.details[i]))
      && r[o + nl] == Total("LF", st.lines.found)
      && r[o + nl + 1] == Total("LH", st.lines.hit)
  {
    LinesOfRecord(st);
  }

  /** The line section of a serialized record sits at its offset, after everything before it. */
  lemma LinesOfRecord(st: FileState)
    ensures LinesAt(st.Serialize(), 4 + 2 * |st.functions.details|, st.lines)
  {
    assert |FunctionSection(st.functions)| == 2 * |st.functions.details| + 2;
    assert |BranchSection(st.branches)| == |st.branches.details| + 2;
    LinesIn(Header(st.path), FunctionSection(st.functions), st.lines, BranchSection(st.branches) + ["end_of_record"]);
  }

  /** The `BRDA` lines follow the line section in detail order, then `BRF` and `BRH`. */
  lemma SerializeBranches(st: FileState)
    ensures var r, nf, nl, nb := st.Serialize(), |st.functions.details|, |st.lines.details|, |st.branches.details|;
      var p := 6 + 2 * nf + nl;
      && |r| > p + nb + 1
      && (forall i :: 0 <= i < nb ==> r[p + i] == BrdaLine(st.branches.details[i]))
      && r[p + nb] == Total("BRF", st.branches.found)
      && r[p + nb + 1] == Total("BRH", st.branches.hit)
  {
    BranchesOfRecord(st);
  }

  /** The branch section of a serialized record sits at its offset, after everything before it. */
  lemma BranchesOfRecord(st: FileState)
    ensures BranchesAt(st.Serialize(), 6 + 2 * |st.functions.details| + |st.lines.details|, st.branches)
  {
    assert |FunctionSection(st.functions)| == 2 * |st.functions.details| + 2;
    assert |LineSection(st.lines)| == |st.lines.details| + 2;
    BranchesIn(Header(st.path), FunctionSection(st.functions), LineSection(st.lines), st.branches, ["end_of_record"]);
  }

  /**
   * `toString` prints the groups' `found` fields; in a valid state they are the numbers of
   * `FN`, `DA` and `BRDA` lines the record holds, and `hit` is the sum those lines print.
   */
  lemma TotalsOfValid(st: FileState)
    requires st.Valid()
    ensures var r, nf, nl, nb := st.Serialize(), |st.functions.details|, |st.lines.details|, |st.branches.details|;
      && r[2 + nf] == Total("FNF", nf)
      && r[3 + nf] == Total("FNH", SumW(st.functions.details, FuncHit))
      && r[4 + 2 * nf + nl] == Total("LF", nl)
      && r[5 + 2 * nf + nl] == Total("LH", SumW(st.lines.details, LineHit))
      && r[6 + 2 * nf + nl + nb] == Total("BRF", nb)
      && r[7 + 2 * nf + nl + nb] == Total("BRH", SumW(st.branches.details, BranchTaken))
  {
    SerializeFunctions(st);
    SerializeLines(st);
    SerializeBranches(st);
  }

  predicate SingleLines(r: seq<string>)
  {
    forall i :: 0 <= i < |r| ==> '\n' !in r[i]
  }

  lemma SingleLinesConcat(a: seq<string>, b: seq<string>)
    requires SingleLines(a) && SingleLines(b)
    ensures SingleLines(a + b)
  {
    forall i | 0 <= i < |a + b| ensures '\n' !in (a + b)[i] {
      if i >= |a| {
        assert (a + b)[i] == b[i - |a|];
      }
    }
  }

  lemma FunctionSectionSingle(g: HitGroup<LcovFunc>)
    requires forall f :: f in g.details ==> '\n' !in f.name
    ensures SingleLines(FunctionSection(g))
  {
    var fd := g.details;
    assert SingleLines(Image(fd, FnDefLine)) by {
      forall i | 0 <= i < |fd| ensures '\n' !in Image(fd, FnDefLine)[i] {
        assert fd[i] in fd;
      }
    }
    assert SingleLines(Image(fd, FnHitLine)) by {
      forall i | 0 <= i < |fd| ensures '\n' !in Image(fd, FnHitLine)[i] {
        assert fd[i] in fd;
      }
    }
    SingleLinesConcat(Image(fd, FnDefLine), [Total("FNF", g.found), Total("FNH", g.hit)]);
    SingleLinesConcat(Image(fd, FnDefLine) + [Total("FNF", g.found), Total("FNH", g.hit)], Image(fd, FnHitLine));
  }

  lemma LineSectionSingle(g: HitGroup<LcovLine>)
    ensures SingleLines(LineSection(g))
  {
    SingleLinesConcat(Image(g.details, DaLine), [Total("LF", g.found), Total("LH", g.hit)]);
  }

  lemma BranchSectionSingle(g: HitGroup<LcovBranch>)
    ensures SingleLines(BranchSection(g))
  {
    SingleLinesConcat(Image(g.details, BrdaLine), [Total("BRF", g.found), Total("BRH", g.hit)]);
  }

  /** No serialised line contains a newline, provided the path and the function names do not. */
  lemma SerializeLinesAreSingle(st: FileState)
    requires '\n' !in st.path
    requires forall f :: f in st.functions.details ==> '\n' !in f.name
    ensures SingleLines(st.Serialize())
  {
    var fs, ls, bs := FunctionSection(st.functions), LineSection(st.lines), BranchSection(st.branches);
    FunctionSectionSingle(st.functions);
    LineSectionSingle(st.lines);
    BranchSectionSingle(st.branches);
    SingleLinesConcat(bs, ["end_of_record"]);
    SingleLinesConcat(ls, bs + ["end_of_record"]);
    SingleLinesConcat(fs, ls + (bs + ["end_of_record"]));
    SingleLinesConcat(Header(st.path), fs + (ls + (bs + ["end_of_record"])));
  }

  /**
   * The text `ToString` returns splits at its newlines into exactly the serialised lines,
   * so its first line is `TN:`, its second `SF:<path>` and its last `end_of_record`.
   */
  lemma ToStringText(st: FileState)
    requires '\n' !in st.path
    requires forall f :: f in st.functions.details ==> '\n' !in f.name
    ensures Split(Join(st.Serialize(), "\n"), '\n') == st.Serialize()
  {
    SerializeLinesAreSingle(st);
    SplitJoin(st.Serialize(), '\n');
  }

  /** A newly created output record for one original file. */
  class OutputFile {
    var path: string
    var functions: HitGroup<LcovFunc>
    var lines: HitGroup<LcovLine>
    var branches: HitGroup<LcovBranch>

    ghost function State(): FileState
      reads this
    {
      FileState(path, functions, lines, branches)
    }

    ghost predicate Valid()
      reads this
    {
      State().Valid()
    }

    constructor (path: string)
      ensures State() == Empty(path) && Valid()
    {
      this.path := path;
      functions := HitGroup(0, 0, []);
      lines := HitGroup(0, 0, []);
      branches := HitGroup(0, 0, []);
    }

    /** Returns the receiver itself, as the source does for chaining. */
    method AddFunction(func: LcovFunc) returns (self: OutputFile)
      modifies this
      ensures self == this
      ensures State() == old(State()).AddFunction(func)
      ensures old(Valid()) ==> Valid()
    {
      functions := HitGroup(functions.found + 1, functions.hit + func.hit, functions.details + [func]);
      self := this;
    }

    method AddLine(line: LcovLine) returns (self: OutputFile)
      modifies this
      ensures self == this
      ensures State() == old(State()).AddLine(line)
      ensures old(Valid()) ==> Valid()
    {
      lines := HitGroup(lines.found + 1, lines.hit + line.hit, lines.details + [line]);
      self := this;
    }

    method AddBranch(branch: LcovBranch) returns (self: OutputFile)
      modifies this
      ensures self == this
      ensures State() == old(State()).AddBranch(branch)
      ensures old(Valid()) ==> Valid()
    {
      branches := HitGroup(branches.found + 1, branches.hit + branch.taken, branches.details + [branch]);
      self := this;
    }

    /** Pushes the record's lines one by one into `output` and joins them with newlines. */
    method ToString() returns (s: string)
      ensures s == Join(State().Serialize(), "\n")
    {
      var output: seq<string> := [];
      output := output + ["TN:"];
      output := output + ["SF:" + path];
      ghost var header := output;
      assert header == Header(path);

      var fd := functions.details;
      for i := 0 to |fd|
        invariant output == header + Image(fd[..i], FnDefLine)
      {
        ImageStep(output, header, fd, i, FnDefLine);
        output := output + [FnDefLine(fd[i])];
      }
      output := output + [Total("FNF", functions.found)];
      output := output + [Total("FNH", functions.hit)];
      ghost var totals := output;
      for i := 0 to |fd|
        invariant output == totals + Image(fd[..i], FnHitLine)
      {
        ImageStep(output, totals, fd, i, FnHitLine);
        output := output + [FnHitLine(fd[i])];
      }
      assert fd[..|fd|] == fd;
      FunctionSectionBuilt(header, functions, totals, output);

      ghost var before := output;
      var ld := lines.details;
      for i := 0 to |ld|
        invariant output == before + Image(ld[..i], DaLine)
      {
        ImageStep(output, before, ld, i, DaLine);
        output := output + [DaLine(ld[i])];
      }
      output := output + [Total("LF", lines.found)];
      output := output + [Total("LH", lines.hit)];
      assert ld[..|ld|] == ld;
      LineSectionBuilt(before, lines, output);

      before := output;
      var bd := branches.details;
      for i := 0 to |bd|
        invariant output == before + Image(bd[..i], BrdaLine)
      {
        ImageStep(output, before, bd, i, BrdaLine);
        output := output + [BrdaLine(bd[i])];
      }
      output := output + [Total("BRF", branches.found)];
      output := output + [Total("BRH", branches.hit)];
      assert bd[..|bd|] == bd;
      BranchSectionBuilt(before, branches, output);

      output := output + ["end_of_record"];
      SectionsJoined(header, FunctionSection(functions), LineSection(lines), BranchSection(branches), output);
      s := Join(output, "\n");
    }
  }
}
