/**
 * How a resolved original position is named: the key under which `transformLcovMap`
 * files an entry (the two `getFile` closures).
 */
module PathKey {
  import opened Wrappers
  import opened Strings

  /** What the source-map consumer answers for a generated position; `source` may be absent. */
  datatype MappedPosition = MappedPosition(source: Option<string>, line: int)

  /**
   * A source-map consumer: `originalPositionFor` stands for the library lookup of a generated
   * line at column 0 with the least-upper-bound bias; `sourceRoot` is the map's declared root.
   */
  datatype SourceMapConsumer = SourceMapConsumer(
    originalPositionFor: int -> Option<MappedPosition>,
    sourceRoot: Option<string>)

  /** A loaded map: the path it was read from and its consumer. */
  datatype SourcemapFile = SourcemapFile(path: string, consumer: SourceMapConsumer)

  /** The platform path operations, left uninterpreted. */
  datatype PathOps = PathOps(
    sep: string,
    join: (string, string) -> string,
    relative: (string, string) -> string,
    dirname: string -> string)

  /** JavaScript truthiness of an optional string: present and not empty. */
  predicate Truthy(s: Option<string>)
  {
    s.Some? && s.value != ""
  }

  /**
   * The record key for an entry whose original source is `source`. Without a source root it
   * is `.` + `sep` + the source joined to the map's directory, made relative to `sourceDir`.
   * With a source root, the first occurrence of the root in the source becomes `./`, and a
   * source in which the root does not occur is its own key.
   */
  function FileKey(sm: SourcemapFile, sourceDir: string, paths: PathOps, source: string): (fn: string)
    ensures !Truthy(sm.consumer.sourceRoot) ==>
      && |fn| >= 1 + |paths.sep|
      && fn[..1 + |paths.sep|] == "." + paths.sep
      && fn[1 + |paths.sep|..] == paths.relative(sourceDir, paths.join(paths.dirname(sm.path), source))
    ensures Truthy(sm.consumer.sourceRoot) && (forall j :: !OccursAt(source, sm.consumer.sourceRoot.value, j)) ==>
      fn == source
    ensures Truthy(sm.consumer.sourceRoot) ==>
      forall i ::
        OccursAt(source, sm.consumer.sourceRoot.value, i)
        && (forall j :: 0 <= j < i ==> !OccursAt(source, sm.consumer.sourceRoot.value, j))
        ==> fn == source[..i] + "./" + source[i + |sm.consumer.sourceRoot.value|..]
  {
    if !Truthy(sm.consumer.sourceRoot) then
      var rel := paths.relative(sourceDir, paths.join(paths.dirname(sm.path), source));
      var fn := "." + paths.sep + rel;
      assert fn[1 + |paths.sep|..] == rel;
      fn
    else
      ReplaceFirst(source, sm.consumer.sourceRoot.value, "./")
  }
}
