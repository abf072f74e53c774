/**
 * The bundler-path normalisation at the start of `getOutputLcov`: a record path such as
 * `./webpack:///src/a.ts` is matched by `/^\.\/([a-z]*?):\/\/(.*)/i`, and the record then
 * takes the text after `://`, without its leading `/` unless the protocol is exactly `file`.
 */
module Normalize {
  import opened Wrappers
  import opened File

  /** `[a-z]` under the `i` flag (no `u` flag): ASCII letters of either case. */
  predicate IsLetter(c: char) { 'a' <= c <= 'z' || 'A' <= c <= 'Z' }

  /** The characters `.` does not match: line feed, carriage return, line and paragraph separators. */
  predicate IsLineTerminator(c: char) { c == '\n' || c == '\r' || c == '\U{2028}' || c == '\U{2029}' }

  predicate AllLetters(s: string) { forall i :: 0 <= i < |s| ==> IsLetter(s[i]) }

  predicate OneLine(s: string) { forall i :: 0 <= i < |s| ==> !IsLineTerminator(s[i]) }

  /** What `(.*)` can stand after: the end of the path, or a line terminator. */
  predicate EndsLine(t: string) { t == [] || IsLineTerminator(t[0]) }

  /** The length of the longest run of letters `s` starts with. */
  function LetterRun(s: string): (n: nat)
    ensures n <= |s| && AllLetters(s[..n]) && (n == |s| || !IsLetter(s[n]))
  {
    if s == [] || !IsLetter(s[0]) then 0
    else
      var n := 1 + LetterRun(s[1..]);
      assert forall i :: 1 <= i < n ==> s[..n][i] == s[1..][..n - 1][i - 1];
      n
  }

  /** What the greedy `(.*)` takes: `s` up to its first line terminator. */
  function TakeLine(s: string): (r: string)
    ensures |r| <= |s| && r == s[..|r|] && OneLine(r) && EndsLine(s[|r|..])
  {
    if s == [] || IsLineTerminator(s[0]) then []
    else
      var r := [s[0]] + TakeLine(s[1..]);
      assert forall i :: 1 <= i < |r| ==> r[i] == TakeLine(s[1..])[i - 1];
      r
  }

  /** The two groups of a successful match. */
  datatype Virtual = Virtual(protocol: string, bundlerPath: string)

  /**
   * `path.match(/^\.\/([a-z]*?):\/\/(.*)/i)`. The lazy letter group can only end where `:`
   * follows, and no letter is `:`, so it takes all the letters after `./`.
   */
  function MatchVirtual(path: string): (m: Option<Virtual>)
    ensures m.Some? ==> |path| >= 2 && path[..2] == "./"
    ensures m.Some? ==> AllLetters(m.value.protocol) && OneLine(m.value.bundlerPath)
    ensures m.Some? ==> |m.value.protocol| + |m.value.bundlerPath| + 5 <= |path|
  {
    if |path| < 2 || path[..2] != "./" then None
    else
      var n := LetterRun(path[2..]);
      var rest := path[2 + n..];
      if |rest| < 3 || rest[..3] != "://" then None
      else
        assert path[2..2 + n] == path[2..][..n];
        Some(Virtual(path[2..2 + n], TakeLine(rest[3..])))
  }

  /** A way to read `path` as `./<protocol>://<bundlerPath><tail>` the pattern accepts. */
  predicate Reads(path: string, protocol: string, bundlerPath: string, tail: string)
  {
    && path == "./" + (protocol + ("://" + (bundlerPath + tail)))
    && AllLetters(protocol) && OneLine(bundlerPath) && EndsLine(tail)
  }

  /** A match reads the path as the pattern does. */
  lemma MatchSound(path: string)
    requires MatchVirtual(path).Some?
    ensures var v := MatchVirtual(path).value;
      exists tail :: Reads(path, v.protocol, v.bundlerPath, tail)
  {
    var n := LetterRun(path[2..]);
    var rest := path[2 + n..];
    var v := MatchVirtual(path).value;
    var b := v.bundlerPath;
    var tail := rest[3..][|b|..];
    Glue(rest[3..], b);
    Glue(rest, "://");
    Glue(path[2..], v.protocol);
    assert path[2..][n..] == rest;
    Glue(path, "./");
    assert Reads(path, v.protocol, b, tail);
  }

  /** A string that starts with `head` is `head` followed by the rest. */
  lemma Glue(s: string, head: string)
    requires |head| <= |s| && s[..|head|] == head
    ensures s == head + s[|head|..]
  {
    assert s == s[..|head|] + s[|head|..];
  }

  /** Every reading the pattern accepts is the match, so the groups are unique. */
  lemma MatchComplete(path: string, protocol: string, bundlerPath: string, tail: string)
    requires Reads(path, protocol, bundlerPath, tail)
    ensures MatchVirtual(path) == Some(Virtual(protocol, bundlerPath))
  {
    var s := path[2..];
    var rest := "://" + (bundlerPath + tail);
    assert s == protocol + rest;
    assert s[|protocol|] == rest[0] == ':';
    assert s[..|protocol|] == protocol;
    LetterRunOf(s, |protocol|);
    assert path[2 + |protocol|..] == s[|protocol|..] == rest;
    assert path[2..2 + |protocol|] == protocol;
    assert rest[3..] == bundlerPath + tail;
    TakeLineOf(bundlerPath, tail);
  }

  lemma {:induction false} LetterRunOf(s: string, n: nat)
    requires n <= |s| && AllLetters(s[..n]) && (n == |s| || !IsLetter(s[n]))
    ensures LetterRun(s) == n
  {
    if n > 0 {
      assert s[1..][..n - 1] == s[..n][1..];
      LetterRunOf(s[1..], n - 1);
    }
  }

  lemma {:induction false} TakeLineOf(b: string, t: string)
    requires OneLine(b) && EndsLine(t)
    ensures TakeLine(b + t) == b
  {
    if b != [] {
      assert (b + t)[1..] == b[1..] + t;
      TakeLineOf(b[1..], t);
    }
  }

  /** The new `file.path`: the bundler path, without a leading `/` unless the protocol is `file`. */
  function NormalizePath(path: string): (r: string)
    ensures MatchVirtual(path).None? ==> r == path
    ensures MatchVirtual(path).Some? ==> OneLine(r) && |r| < |path|
    ensures MatchVirtual(path).Some? ==> var b := MatchVirtual(path).value.bundlerPath;
      r == b || (|b| > 0 && b[0] == '/' && r == b[1..])
  {
    match MatchVirtual(path)
    case None => path
    case Some(v) =>
      if v.protocol != "file" && |v.bundlerPath| > 0 && v.bundlerPath[0] == '/' then v.bundlerPath[1..]
      else v.bundlerPath
  }

  /**
   * For every path the pattern reads as `./<protocol>://<bundlerPath><tail>`, the new path is
   * `bundlerPath`, stripped of one leading `/` exactly when `protocol` is not the literal `file`;
   * `tail`, the text from the first line terminator on, is dropped.
   */
  lemma NormalizeVirtual(path: string, protocol: string, bundlerPath: string, tail: string)
    requires Reads(path, protocol, bundlerPath, tail)
    ensures NormalizePath(path) ==
      if protocol != "file" && bundlerPath != [] && bundlerPath[0] == '/' then bundlerPath[1..] else bundlerPath
  {
    MatchComplete(path, protocol, bundlerPath, tail);
  }

  /** A path that changes is one the pattern reads, and the new path is a single line. */
  lemma NormalizeChanged(path: string)
    requires NormalizePath(path) != path
    ensures exists protocol, bundlerPath, tail :: Reads(path, protocol, bundlerPath, tail)
    ensures OneLine(NormalizePath(path)) && |NormalizePath(path)| < |path|
  {
    MatchSound(path);
    var v := MatchVirtual(path).value;
    var tail :| Reads(path, v.protocol, v.bundlerPath, tail);
    assert |path| == 5 + |v.protocol| + |v.bundlerPath| + |tail|;
  }

  lemma WebpackOfFileUrl()
    ensures NormalizePath("./webpack://./file:///x") == "./file:///x"
  {
    NormalizeVirtual("./webpack://./file:///x", "webpack", "./file:///x", "");
  }

  lemma FileUrl()
    ensures NormalizePath("./file:///x") == "/x"
  {
    NormalizeVirtual("./file:///x", "file", "/x", "");
  }

  lemma UpperFileUrl()
    ensures NormalizePath("./FILE:///x") == "x"
  {
    NormalizeVirtual("./FILE:///x", "FILE", "/x", "");
  }

  /**
   * Normalising twice can differ from normalising once: a webpack path whose bundler path is
   * itself a `file://` URL loses its `./file://` prefix on the second pass.
   */
  lemma NormalizeNotIdempotent()
    ensures NormalizePath("./webpack://./file:///x") == "./file:///x"
    ensures NormalizePath(NormalizePath("./webpack://./file:///x")) == "/x"
  {
    WebpackOfFileUrl();
    FileUrl();
  }

  /** The protocol test is case-sensitive: `FILE` loses its slash where `file` keeps it. */
  lemma ProtocolCaseSensitive()
    ensures NormalizePath("./file:///x") == "/x"
    ensures NormalizePath("./FILE:///x") == "x"
  {
    FileUrl();
    UpperFileUrl();
  }

  /** The callback of `getOutputLcov`, up to its existence check: rewrites `file.path` in place. */
  method NormalizeFilePath(file: OutputFile)
    modifies file
    ensures file.State() == old(file.State()).(path := NormalizePath(old(file.path)))
  {
    var m := MatchVirtual(file.path);
    if m.Some? {
      var bundlerPath := m.value.bundlerPath;
      if m.value.protocol != "file" && |bundlerPath| > 0 && bundlerPath[0] == '/' {
        bundlerPath := bundlerPath[1..];
      }
      file.path := bundlerPath;
    }
  }

  /** The first `n` records have had their paths normalised since the method began; the rest are untouched. */
  twostate predicate NormalizedUpTo(files: seq<OutputFile>, n: int)
    reads set j | 0 <= j < |files| :: files[j]
  {
    forall j :: 0 <= j < |files| ==>
      files[j].State() == if j < n then old(files[j].State()).(path := NormalizePath(old(files[j].path)))
                          else old(files[j].State())
  }

  /** `_.map` of that callback over the records, which `getTransformedFiles` returns distinct. */
  method NormalizePaths(files: seq<OutputFile>)
    requires forall j, j' :: 0 <= j < j' < |files| ==> files[j] != files[j']
    modifies set j | 0 <= j < |files| :: files[j]
    ensures forall j :: 0 <= j < |files| ==>
      files[j].State() == old(files[j].State()).(path := NormalizePath(old(files[j].path)))
  {
    for i := 0 to |files|
      invariant NormalizedUpTo(files, i)
    {
      label before:
      NormalizeFilePath(files[i]);
      forall j | 0 <= j < |files| && j != i ensures files[j].State() == old@before(files[j].State()) {
        assert if j < i then files[j] != files[i] else files[i] != files[j];
      }
    }
  }
}
