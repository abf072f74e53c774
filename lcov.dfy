/** The entry and record shapes that an LCOV parser yields for one file. */
module Lcov {
  import opened Seqs

  /** `FN`/`FNDA`: a function's first line, its name and how often it ran. */
  datatype LcovFunc = LcovFunc(name: string, line: int, hit: int)

  /** `DA`: a line and how often it ran. */
  datatype LcovLine = LcovLine(line: int, hit: int)

  /** `BRDA`: a branch of a block on a line and how often it was taken. */
  datatype LcovBranch = LcovBranch(line: int, block: int, branch: int, taken: int)

  function FuncHit(f: LcovFunc): int { f.hit }
  function LineHit(l: LcovLine): int { l.hit }
  function BranchTaken(b: LcovBranch): int { b.taken }

  /** One hit group: how many entries were found, their summed hits, the entries in order. */
  datatype HitGroup<T> = HitGroup(found: int, hit: int, details: seq<T>)

  /** `found` counts the entries and `hit` sums them under the weight `w`. */
  predicate Tallies<T>(g: HitGroup<T>, w: T -> int)
  {
    g.found == |g.details| && g.hit == SumW(g.details, w)
  }

  /** The group whose entries are `details`: `found` and `hit` computed from them. */
  function Group<T>(details: seq<T>, w: T -> int): (g: HitGroup<T>)
    ensures Tallies(g, w) && g.details == details
  {
    HitGroup(|details|, SumW(details, w), details)
  }

  /** One parsed record: the file it is about and its three groups. */
  datatype LcovFile = LcovFile(
    title: string,
    file: string,
    functions: HitGroup<LcovFunc>,
    lines: HitGroup<LcovLine>,
    branches: HitGroup<LcovBranch>)
}
