# lcov-sourcemap, modelled in Dafny

lcov-sourcemap rewrites an LCOV coverage report about generated (bundled or compiled)
JavaScript so that it describes the original source files. For every generated file it
looks up each function, line and branch entry in the file's source map. A resolved entry
is added, at its original line, to the coverage record of its original file. An entry that
does not resolve is dropped. The records are then serialised back to LCOV text.

This project models the core of that pipeline:

- `OutputFile` (`lib/file.ts`). It is a class whose methods update its hit groups in place.
  `ToString` builds its LCOV record line by line. Module `File`: the class `OutputFile`,
  whose abstract value is the datatype `FileState`, and `FileState.Serialize`, the list of
  lines the record consists of.
- `transformLcovMap` (`lib/index.ts`), with its two `getFile` closures. Modules `PathKey`
  (how an original source is named), `Routing` (which entries go to which record) and
  `Transform` (the three imperative loops over a `map<string, OutputFile>`).
  `TransformFacts` holds what the result is proved to be.
- The driver steps of `lib/index.ts`, in module `Driver`:
  - the list-to-object step of `getLcovData`, which is `Object.fromEntries`;
  - the missing-map check and the flatten of `getTransformedFiles`.
- The bundler-path normalisation at the start of `getOutputLcov`, in module `Normalize`.
  This covers the regular expression, the protocol test and the in-place rewrite of
  `file.path`.

The supporting modules are:

- `Wrappers`: `Option`, `Result`.
- `Seqs`: weighted sums, images, de-duplication.
- `Strings`: number printing, `join`/`split`, first-occurrence `replace`.
- `Lcov`: the entry and record shapes.

The source-map consumer and the `path` functions are parameters: `SourceMapConsumer`
and `PathOps` are datatypes with function-valued fields.

Four behaviours of the code that the model reproduces:

- Entries are grouped per generated file. Two generated files that map to the same
  original file give two separate records for it; the lists are only concatenated.
- The path normalisation is not idempotent. `NormalizeNotIdempotent` exhibits this.
- The protocol test is case-sensitive. `ProtocolCaseSensitive` exhibits this.
- `FNH`, `LH` and `BRH` print the summed hit (or taken) counts of the entries, as
  `addFunction`, `addLine` and `addBranch` accumulate them. The LCOV format defines these
  fields as the number of entries hit. `File.TotalsOfValid` states what is printed.

## Model

| member | source | states |
|---|---|---|
| `File.OutputFile.constructor` | lib/file.ts:10-26 | a new record has the given path, all three groups at zero with no details, and satisfies the tally invariant |
| `File.OutputFile.AddFunction` | lib/file.ts:28-35 | only the function group changes: found + 1, hit + the entry's hit, the entry appended; the tally invariant is kept; the receiver itself is returned |
| `File.OutputFile.AddLine` | lib/file.ts:37-44 | the same for the line group |
| `File.OutputFile.AddBranch` | lib/file.ts:46-53 | the same for the branch group, with `hit` increased by the taken count (not by a hit) |
| `File.FileState.AddFunction` | lib/file.ts:28-35 | the abstract update: found and hit grow by one entry, details gain it at the end, other groups and the path unchanged, validity preserved |
| `File.FileState.AddLine` | lib/file.ts:37-44 | the same for lines |
| `File.FileState.AddBranch` | lib/file.ts:46-53 | the same for branches, the hit sum growing by `taken` |
| `File.Empty` | lib/file.ts:11-26 | the initial state: path kept, every group empty with zero totals, valid |
| `File.OutputFile.ToString` | lib/file.ts:55-98 | the pushes, in the source's order, yield exactly the lines of `Serialize`, joined with newlines |
| `File.FileState.Serialize` | lib/file.ts:55-96 | a record has 2·nf + nl + nb + 9 lines; first `TN:`, then `SF:<path>`, last `end_of_record` |
| `File.SerializeFunctions` | lib/file.ts:62-70 | after the header: one `FN:<line>,<name>` per function in detail order, `FNF`, `FNH`, then one `FNDA:<hit>,<name>` per function in the same order |
| `File.SerializeLines` | lib/file.ts:72-77 | after the function section: one `DA:<line>,<hit>` per line entry in order, then `LF` and `LH` |
| `File.SerializeBranches` | lib/file.ts:79-93 | after the line section: one `BRDA:<line>,<block>,<branch>,<taken>` per branch in order, then `BRF` and `BRH` |
| `File.TotalsOfValid` | lib/file.ts:66-93 | in a state whose groups tally their entries, `FNF`, `LF` and `BRF` print the number of `FN`, `DA` and `BRDA` lines, and `FNH`, `LH` and `BRH` the sum of the hits (taken counts) those lines carry |
| `File.FunctionSectionLayout` | lib/file.ts:63-70 | the function section on its own is 2·n + 2 lines: one `FN` line per function in detail order, `FNF`, `FNH`, then one `FNDA` line per function in the same order |
| `File.LineSectionLayout` | lib/file.ts:73-77 | the line section on its own is n + 2 lines: one `DA` line per entry in detail order, then `LF` and `LH` |
| `File.BranchSectionLayout` | lib/file.ts:80-93 | the branch section on its own is n + 2 lines: one `BRDA` line per branch in detail order, then `BRF` and `BRH` |
| `File.SerializeLinesAreSingle` | lib/file.ts:55-96 | no serialised line holds a newline when the path and function names hold none (numbers never do) |
| `File.ToStringText` | lib/file.ts:98 | the joined text splits at its newlines back into exactly the serialised lines |
| `Strings.SplitJoin` | lib/file.ts:98 | `split(join(parts, "\n"))` gives back `parts` when no part contains a newline |
| `Strings.ParseNatToString` | lib/file.ts:64-93 | every count printed into a record reads back as the same number |
| `Strings.Join` | lib/file.ts:98 | `join`: empty for no parts; otherwise the text starts with the first part and ends with the last, and with several parts it is at least as long as both ends and one separator |
| `Strings.JoinSnoc` | lib/file.ts:98 | joining one more part appends the separator and that part; with the first part in front (the definition), the separator stands between every two consecutive parts |
| `Strings.IntToString` | lib/file.ts:64-93 | the decimal text of a number: non-empty, one line, made of digits and `-`, and starting with `-` exactly when the number is negative |
| `Strings.ReplaceFirst` | lib/index.ts:132 | string `replace`: without an occurrence the text is unchanged; otherwise only the first occurrence is replaced, the rest kept |
| `PathKey.FileKey` | lib/index.ts:116-136 | without a truthy `sourceRoot` the key is `.` + `sep` + the source joined to the map's directory, made relative to `sourceDir`; with one, the first occurrence of the root in the source becomes `./`, and a source without the root is its own key |
| `Transform.Route` | lib/index.ts:139-148 | an entry is dropped exactly when there is no position or its `source` is missing or empty; otherwise it goes to the key of its source, at its original line |
| `Transform.Fetch` | lib/index.ts:128 | one `getFile(source)` call: the record returned has the state stored under `fn`, or the empty state for a new `fn`; the key order gains `fn` exactly when it was absent; the map stays the same when `fn` was present, and otherwise gains only a fresh record under `fn`; every record keeps the state recorded for its key |
| `Transform.PlaceFunction` | lib/index.ts:150-154 | `getFile(source).addFunction(...)`: the record under `fn`, created empty when absent, now has its state plus the function entry, and every other key keeps its record and state; the key order gains `fn` exactly when it was absent; an existing record is updated in place, a missing one is added fresh, and nothing else in the map changes |
| `Transform.PlaceLine` | lib/index.ts:169-172 | the same for `addLine`, with the line entry |
| `Transform.PlaceBranch` | lib/index.ts:187-192 | the same for `addBranch`, with the branch entry |
| `Transform.GetFile` | lib/index.ts:128 | the record already stored under `fn` when there is one; otherwise a fresh empty record for `fn`, stored under it and appended to the key order |
| `Transform.OnFunction` | lib/index.ts:138-155 | one callback: an unresolved entry (no position, or a falsy `source`) changes nothing; a resolved one is added, at its original line, to the record of its key |
| `Transform.EachFunction` | lib/index.ts:138-155 | after the function loop every record holds exactly the function entries routed to it, keys in first-creation order, each record new |
| `Transform.OnLine` | lib/index.ts:157-173 | as `OnFunction`, for a line entry |
| `Transform.EachLine` | lib/index.ts:157-173 | the line loop extends the records and keys built so far; old records stay, new ones are fresh |
| `Transform.OnBranch` | lib/index.ts:175-193 | as `OnFunction`, for a branch entry, keeping block, branch and taken |
| `Transform.EachBranch` | lib/index.ts:175-193 | the branch loop extends the records and keys built so far |
| `Transform.TransformLcovMap` | lib/index.ts:107-196 | the result's keys are `OutputKeys` in insertion order, each maps to a distinct new record whose state is `RecordFor` that key |
| `TransformFacts.KeysAreResolved` | lib/index.ts:138-193 | a key is in the result exactly when some function, line or branch entry resolves to it |
| `TransformFacts.KeysDistinct` | lib/index.ts:128 | each key appears once, and the record under a key has that key as its path |
| `TransformFacts.RecordTotals` | lib/index.ts:128-192 | every record of the result tallies its entries, so its `FNF`/`LF`/`BRF` lines print the number of its entries and `FNH`/`LH`/`BRH` their summed hits |
| `TransformFacts.FunctionLands` | lib/index.ts:150-154 | a resolved function entry appears, with its name and hit and its original line, in the record of its key |
| `TransformFacts.LineLands` | lib/index.ts:169-172 | a resolved line entry appears, with its hit at its original line, in the record of its key |
| `TransformFacts.BranchLands` | lib/index.ts:187-192 | a resolved branch entry appears, with block, branch and taken at its original line, in the record of its key |
| `TransformFacts.FunctionSource` | lib/index.ts:138-155 | every function entry of a record comes from an input entry that resolves to that key and line |
| `TransformFacts.LineSource` | lib/index.ts:157-173 | every line entry of a record comes from an input entry that resolves to that key and line |
| `TransformFacts.BranchSource` | lib/index.ts:175-193 | every branch entry of a record comes from an input entry that resolves to that key and line |
| `TransformFacts.UnresolvedFunctionDropped` | lib/index.ts:145-148 | removing an unresolved function entry from the input leaves the result unchanged |
| `TransformFacts.UnresolvedLineDropped` | lib/index.ts:164-167 | removing an unresolved line entry leaves the result unchanged |
| `TransformFacts.UnresolvedBranchDropped` | lib/index.ts:182-185 | removing an unresolved branch entry leaves the result unchanged |
| `TransformFacts.FunctionsConserved` | lib/index.ts:138-155 | over all records, `FNF` adds up to the number of resolved function entries and `FNH` to their summed hits |
| `TransformFacts.LinesConserved` | lib/index.ts:157-173 | over all records, `LF` adds up to the number of resolved line entries and `LH` to their summed hits |
| `TransformFacts.BranchesConserved` | lib/index.ts:175-193 | over all records, `BRF` adds up to the number of resolved branch entries and `BRH` to their summed taken counts |
| `Routing.EntryLands` | lib/index.ts:138-193 | a resolved entry is among the entries routed to its key, relocated to its original line |
| `Routing.EntrySource` | lib/index.ts:138-193 | every entry routed to a key comes from an input entry that resolves there |
| `Routing.KeysOfRouteAll` | lib/index.ts:138-193 | a key is routed to exactly when some input entry resolves to it |
| `Routing.DropUnresolvable` | lib/index.ts:145-148 | an entry that does not resolve contributes nothing to the routing |
| `Routing.Conservation` | lib/index.ts:138-193 | over distinct keys covering every routed key, the per-key sums add up to the sum over all routed entries: none lost, none counted twice |
| `Routing.GroupConservation` | lib/index.ts:138-193 | the same sum equals the weight of the resolving input entries, for any weight that relocation keeps |
| `Driver.FromEntries` | lib/index.ts:255 | `Object.fromEntries`: keys in order of first occurrence, each once, and exactly the keys present |
| `Driver.FromEntriesKeys` | lib/index.ts:255 | a key is present exactly when some entry has it |
| `Driver.FromEntriesLastWins` | lib/index.ts:255 | the value under a key is that of the last entry with it |
| `Driver.GetLcovData` | lib/index.ts:248-256 | the object built from the parsed items is well formed (distinct keys, exactly those with values) |
| `Driver.LcovDataByFile` | lib/index.ts:251-255 | keys are the items' files in first-occurrence order; a file is present iff some item names it; its value is the last item about it |
| `Driver.LcovDataEmpty` | lib/index.ts:255 | a parse that yields nothing gives the empty object |
| `Driver.Flatten` | lib/index.ts:90-102 | the run succeeds exactly when every generated file has a source map |
| `Driver.FirstMissing` | lib/index.ts:92-95 | a failing run reports `Missing sourcemap: <key>` for the first generated file without a map |
| `Driver.FlattenSlice` | lib/index.ts:98-101 | in a successful run the records of each file appear contiguously, after those of the files before it |
| `Driver.FlattenSum` | lib/index.ts:98-101 | summing a record weight over the flattened list is summing it file by file |
| `Driver.RunConserved` | lib/index.ts:90-102 | over a whole successful run the found and hit totals of lines, functions and branches equal those of the resolved input entries |
| `Driver.Values` | lib/index.ts:98-99 | `_.values(group)`: one value per key, in key order, each being the object's value under that key |
| `Driver.TransformEntry` | lib/index.ts:91-100 | one generated file: the missing-map error, or the values of `transformLcovMap` in key order, distinct and new |
| `Driver.Step` | lib/index.ts:90-101 | one file of the run: either the run's overall error or the records so far extended by this file's |
| `Driver.GetTransformedFiles` | lib/index.ts:89-103 | fails, with the same message, exactly when the specification `Flatten` fails; otherwise returns distinct records whose states are the specification's, in order |
| `Normalize.MatchVirtual` | lib/index.ts:51 | a match needs the prefix `./`; group 1 is letters only, group 2 a single line, and both fit in the path with `./` and `://` |
| `Normalize.NormalizePath` | lib/index.ts:51-58 | a path the pattern does not match is kept; otherwise the new path is group 2, or group 2 without its leading `/`, a single line shorter than the path |
| `Normalize.LetterRun` | lib/index.ts:51 | the lazy `[a-z]*?` group before `:` takes the longest run of ASCII letters (either case) |
| `Normalize.TakeLine` | lib/index.ts:51 | the greedy `(.*)` takes the text up to the first line terminator |
| `Normalize.MatchSound` | lib/index.ts:51 | a match reads the path as `./<letters>://<one line><rest from a line terminator>` |
| `Normalize.MatchComplete` | lib/index.ts:51 | every such reading of the path is the match, so groups 1 and 2 are determined |
| `Normalize.NormalizeVirtual` | lib/index.ts:51-59 | for a matching path the new path is group 2, without one leading `/` exactly when group 1 is not the literal `file` |
| `Normalize.NormalizeChanged` | lib/index.ts:51-59 | a path that changes is one the pattern matches, and the new path is a single line and shorter |
| `Normalize.NormalizeNotIdempotent` | lib/index.ts:51-59 | `./webpack://./file:///x` becomes `./file:///x`, which a second pass turns into `/x` |
| `Normalize.ProtocolCaseSensitive` | lib/index.ts:55 | `./file:///x` keeps its slash (`/x`) while `./FILE:///x` loses it (`x`) |
| `Normalize.NormalizeFilePath` | lib/index.ts:50-59 | the callback rewrites only `file.path`, to the normalised path; the groups are unchanged |
| `Normalize.NormalizePaths` | lib/index.ts:48-59 | over distinct records, each record's path is normalised and nothing else about it changes |

## Left out

- File I/O: reading the LCOV file (`fs.readFile` inside `lcov-parse`), reading the maps (`fs.readFile`), the existence test (`fs.stat`) and `fs.writeFile` in `writeLcov`. The parse result is `GetLcovData`'s `Option` argument; the loaded maps are `GetTransformedFiles`' `maps` argument.
- `getSourcemapsData` and `getData`: source-map decoding (`convert-source-map`, `SourceMapConsumer.fromSourceMap`). A consumer is a parameter whose `originalPositionFor` is an uninterpreted function of the generated line (column 0, least-upper-bound bias fixed). `getTransformedFiles` calls `getData` twice, which only repeats I/O.
- `getOutputLcov` after the path rewrite: the `fs.stat` filter, `Promise.all`, and joining the records' texts with newlines. A record whose file does not exist makes `fs.stat` reject, so its promise never settles; this is asynchronous behaviour the model does not capture.
- `path.sep`, `path.join`, `path.relative`, `path.dirname` and `process.cwd()`: the first four are uninterpreted fields of `PathOps`; the last is not used by the modelled steps.
- JavaScript object quirks: integer-like keys enumerate before other keys, and inherited names such as `toString` are truthy in `data.sourcemap`. Object keys are modelled in insertion order, and `maps` as a plain map.
- `Transform.GetFile`: a key that names an inherited property, such as a source `constructor` that the `sourceRoot` callback (lib/index.ts:134) keeps as it is, makes `files[fn]` truthy, and the `addFunction`, `addLine` or `addBranch` call that follows throws a `TypeError`. The model looks keys up in a map, so it creates a record for such a key instead.
- Numbers are unbounded integers. Floating-point hits, `NaN` and non-integer lines are not modelled.
- `lcov-parse` fields other than the file, its title and the three groups are not modelled. The input groups' own `found`/`hit` are never read by the source and play no role in the model.
- `Driver.GetTransformedFiles`: does not promise that the returned records are newly allocated. Each group is fresh when created (`Driver.TransformEntry`), but this is not carried through the loop.
- `Transform.TransformLcovMap`: the result is a key sequence plus a map rather than one JavaScript object.
