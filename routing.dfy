/**
 * Routing entries to records: each entry whose generated line resolves is sent, relocated
 * to its original line, to the record named by its key; the others are dropped.
 * Generic in the kind of entry (function, line or branch).
 */
module Routing {
  import opened Wrappers
  import opened Seqs

  /** Where an entry goes: the key of its record and its original line. */
  datatype Target = Target(key: string, line: int)

  /** An entry together with the key of the record it is added to. */
  datatype Routed<T> = Routed(key: string, entry: T)

  /** The routed entries of `s` in input order; `at` relocates an entry to its original line. */
  function RouteAll<T>(s: seq<T>, lineOf: T -> int, at: (T, int) -> T, route: int -> Option<Target>): seq<Routed<T>>
    decreases |s|
  {
    if s == [] then []
    else
      var rest := RouteAll(s[..|s| - 1], lineOf, at, route);
      var e := s[|s| - 1];
      match route(lineOf(e))
      case None => rest
      case Some(t) => rest + [Routed(t.key, at(e, t.line))]
  }

  /** The input entries whose line resolves, in input order (the reference for conservation). */
  function Resolving<T>(s: seq<T>, lineOf: T -> int, route: int -> Option<Target>): seq<T>
    decreases |s|
  {
    if s == [] then []
    else
      var rest := Resolving(s[..|s| - 1], lineOf, route);
      if route(lineOf(s[|s| - 1])).Some? then rest + [s[|s| - 1]] else rest
  }

  /** The entries routed to key `k`, in order. */
  function Only<T>(k: string, rs: seq<Routed<T>>): seq<T>
    decreases |rs|
  {
    if rs == [] then []
    else
      var rest := Only(k, rs[..|rs| - 1]);
      if rs[|rs| - 1].key == k then rest + [rs[|rs| - 1].entry] else rest
  }

  function KeysOf<T>(rs: seq<Routed<T>>): (r: seq<string>)
    ensures |r| == |rs| && forall i :: 0 <= i < |rs| ==> r[i] == rs[i].key
  {
    seq(|rs|, i requires 0 <= i < |rs| => rs[i].key)
  }

  function Entries<T>(rs: seq<Routed<T>>): (r: seq<T>)
    ensures |r| == |rs| && forall i :: 0 <= i < |rs| ==> r[i] == rs[i].entry
  {
    seq(|rs|, i requires 0 <= i < |rs| => rs[i].entry)
  }

  /** For each key, the summed weight of the entries routed to it. */
  function PerKey<T>(rs: seq<Routed<T>>, w: T -> int): string -> int
  {
    k => SumW(Only(k, rs), w)
  }

  lemma RouteAllStep<T>(s: seq<T>, i: nat, lineOf: T -> int, at: (T, int) -> T, route: int -> Option<Target>)
    requires i < |s|
    ensures RouteAll(s[..i + 1], lineOf, at, route) ==
      match route(lineOf(s[i]))
      case None => RouteAll(s[..i], lineOf, at, route)
      case Some(t) => RouteAll(s[..i], lineOf, at, route) + [Routed(t.key, at(s[i], t.line))]
  {
    assert s[..i + 1][..i] == s[..i];
  }

  lemma OnlyAppend<T>(k: string, rs: seq<Routed<T>>, r: Routed<T>)
    ensures Only(k, rs + [r]) == if r.key == k then Only(k, rs) + [r.entry] else Only(k, rs)
  {
    assert (rs + [r])[..|rs|] == rs;
  }

  lemma KeysOfAppend<T>(rs: seq<Routed<T>>, r: Routed<T>)
    ensures KeysOf(rs + [r]) == KeysOf(rs) + [r.key]
  {
  }

  lemma EntriesAppend<T>(rs: seq<Routed<T>>, r: Routed<T>)
    ensures Entries(rs + [r]) == Entries(rs) + [r.entry]
  {
  }

  /** A key no entry is routed to receives nothing. */
  lemma {:induction false} OnlyAbsent<T>(k: string, rs: seq<Routed<T>>)
    requires k !in KeysOf(rs)
    ensures Only(k, rs) == []
    decreases |rs|
  {
    if rs != [] {
      var rs' := rs[..|rs| - 1];
      assert KeysOf(rs') == KeysOf(rs)[..|rs| - 1];
      OnlyAbsent(k, rs');
    }
  }

  lemma {:induction false} OnlyConcat<T>(k: string, a: seq<Routed<T>>, b: seq<Routed<T>>)
    ensures Only(k, a + b) == Only(k, a) + Only(k, b)
    decreases |b|
  {
    if b == [] {
      assert a + b == a;
    } else {
      var b' := b[..|b| - 1];
      OnlyConcat(k, a, b');
      assert a + b == (a + b') + [b[|b| - 1]];
      OnlyAppend(k, a + b', b[|b| - 1]);
    }
  }

  lemma {:induction false} RouteAllConcat<T>(a: seq<T>, b: seq<T>, lineOf: T -> int, at: (T, int) -> T, route: int -> Option<Target>)
    ensures RouteAll(a + b, lineOf, at, route) == RouteAll(a, lineOf, at, route) + RouteAll(b, lineOf, at, route)
    decreases |b|
  {
    if b == [] {
      assert a + b == a;
    } else {
      var b' := b[..|b| - 1];
      RouteAllConcat(a, b', lineOf, at, route);
      assert (a + b)[..|a + b| - 1] == a + b';
    }
  }

  /** An entry whose line does not resolve can be removed from the input without changing the routing. */
  lemma DropUnresolvable<T>(a: seq<T>, e: T, b: seq<T>, lineOf: T -> int, at: (T, int) -> T, route: int -> Option<Target>)
    requires route(lineOf(e)).None?
    ensures RouteAll(a + [e] + b, lineOf, at, route) == RouteAll(a + b, lineOf, at, route)
  {
    RouteAllConcat(a + [e], b, lineOf, at, route);
    RouteAllConcat(a, [e], lineOf, at, route);
    RouteAllConcat(a, b, lineOf, at, route);
    assert [e][..0] == [];
  }

  /** An entry whose line resolves to `t` is routed to `t.key`, relocated to `t.line`, between the entries before and after it. */
  lemma KeepResolvable<T>(a: seq<T>, e: T, b: seq<T>, lineOf: T -> int, at: (T, int) -> T, route: int -> Option<Target>)
    requires route(lineOf(e)).Some?
    ensures var t := route(lineOf(e)).value;
      RouteAll(a + [e] + b, lineOf, at, route)
        == RouteAll(a, lineOf, at, route) + [Routed(t.key, at(e, t.line))] + RouteAll(b, lineOf, at, route)
  {
    RouteAllConcat(a + [e], b, lineOf, at, route);
    RouteAllConcat(a, [e], lineOf, at, route);
    assert [e][..0] == [];
  }

  /** A key receives entries exactly when some input entry resolves to it. */
  lemma {:induction false} KeysOfRouteAll<T>(s: seq<T>, lineOf: T -> int, at: (T, int) -> T, route: int -> Option<Target>, k: string)
    ensures k in KeysOf(RouteAll(s, lineOf, at, route)) <==>
      exists j :: 0 <= j < |s| && route(lineOf(s[j])).Some? && route(lineOf(s[j])).value.key == k
    decreases |s|
  {
    if s != [] {
      var s' := s[..|s| - 1];
      KeysOfRouteAll(s', lineOf, at, route, k);
      var rs' := RouteAll(s', lineOf, at, route);
      var e := s[|s| - 1];
      match route(lineOf(e))
      case None =>
      case Some(t) => KeysOfAppend(rs', Routed(t.key, at(e, t.line)));
      if exists j :: 0 <= j < |s| && route(lineOf(s[j])).Some? && route(lineOf(s[j])).value.key == k {
        var j :| 0 <= j < |s| && route(lineOf(s[j])).Some? && route(lineOf(s[j])).value.key == k;
        if j < |s'| {
          assert s'[j] == s[j];
        }
      }
      if exists j :: 0 <= j < |s'| && route(lineOf(s'[j])).Some? && route(lineOf(s'[j])).value.key == k {
        var j :| 0 <= j < |s'| && route(lineOf(s'[j])).Some? && route(lineOf(s'[j])).value.key == k;
        assert s[j] == s'[j];
      }
    }
  }

  /** An input entry that resolves ends up, relocated, among the entries of its key. */
  lemma EntryLands<T>(s: seq<T>, j: nat, lineOf: T -> int, at: (T, int) -> T, route: int -> Option<Target>)
    requires j < |s| && route(lineOf(s[j])).Some?
    ensures var t := route(lineOf(s[j])).value;
      at(s[j], t.line) in Only(t.key, RouteAll(s, lineOf, at, route))
  {
    var t := route(lineOf(s[j])).value;
    var r := Routed(t.key, at(s[j], t.line));
    var ra, rb := RouteAll(s[..j], lineOf, at, route), RouteAll(s[j + 1..], lineOf, at, route);
    RouteAround(s, j, lineOf, at, route);
    OnlyAppend(t.key, ra, r);
    OnlyConcat(t.key, ra + [r], rb);
  }

  /** Routing around one resolvable entry. */
  lemma RouteAround<T>(s: seq<T>, j: nat, lineOf: T -> int, at: (T, int) -> T, route: int -> Option<Target>)
    requires j < |s| && route(lineOf(s[j])).Some?
    ensures var t := route(lineOf(s[j])).value;
      RouteAll(s, lineOf, at, route)
        == RouteAll(s[..j], lineOf, at, route) + [Routed(t.key, at(s[j], t.line))] + RouteAll(s[j + 1..], lineOf, at, route)
  {
    Around(s, j);
    KeepResolvable(s[..j], s[j], s[j + 1..], lineOf, at, route);
  }

  /** Every entry of a key comes from an input entry that resolves to that key, relocated. */
  lemma {:induction false} EntrySource<T>(s: seq<T>, lineOf: T -> int, at: (T, int) -> T, route: int -> Option<Target>, k: string, x: T)
    requires x in Only(k, RouteAll(s, lineOf, at, route))
    ensures exists j :: (0 <= j < |s| && route(lineOf(s[j])).Some? && route(lineOf(s[j])).value.key == k
                         && x == at(s[j], route(lineOf(s[j])).value.line))
    decreases |s|
  {
    var s' := s[..|s| - 1];
    var rs' := RouteAll(s', lineOf, at, route);
    var e := s[|s| - 1];
    match route(lineOf(e))
    case None =>
      EntrySource(s', lineOf, at, route, k, x);
      var j :| 0 <= j < |s'| && route(lineOf(s'[j])).Some? && route(lineOf(s'[j])).value.key == k
        && x == at(s'[j], route(lineOf(s'[j])).value.line);
      assert s[j] == s'[j];
    case Some(t) =>
      OnlyAppend(k, rs', Routed(t.key, at(e, t.line)));
      if x in Only(k, rs') {
        EntrySource(s', lineOf, at, route, k, x);
        var j :| 0 <= j < |s'| && route(lineOf(s'[j])).Some? && route(lineOf(s'[j])).value.key == k
          && x == at(s'[j], route(lineOf(s'[j])).value.line);
        assert s[j] == s'[j];
      } else {
        assert route(lineOf(s[|s| - 1])).Some?;
      }
  }

  /** Relocation loses no weight: the routed entries weigh what the resolving inputs weigh. */
  lemma {:induction false} RoutedWeight<T>(s: seq<T>, lineOf: T -> int, at: (T, int) -> T, route: int -> Option<Target>, w: T -> int)
    requires forall e, l :: w(at(e, l)) == w(e)
    ensures SumW(Entries(RouteAll(s, lineOf, at, route)), w) == SumW(Resolving(s, lineOf, route), w)
    decreases |s|
  {
    if s != [] {
      var s' := s[..|s| - 1];
      var rs' := RouteAll(s', lineOf, at, route);
      RoutedWeight(s', lineOf, at, route, w);
      var e := s[|s| - 1];
      match route(lineOf(e))
      case None =>
      case Some(t) =>
        var r := Routed(t.key, at(e, t.line));
        assert Entries(rs' + [r]) == Entries(rs') + [r.entry];
        SumWAppend(Entries(rs'), r.entry, w);
        SumWAppend(Resolving(s', lineOf, route), e, w);
    }
  }

  /**
   * Conservation: over distinct keys that cover every routed key, the per-key sums add up
   * to the sum over all routed entries. No entry is lost or counted twice.
   */
  lemma {:induction false} Conservation<T>(ks: seq<string>, rs: seq<Routed<T>>, w: T -> int)
    requires Distinct(ks)
    requires forall k :: k in KeysOf(rs) ==> k in ks
    ensures SumW(ks, PerKey(rs, w)) == SumW(Entries(rs), w)
    decreases |rs|
  {
    if rs == [] {
      SumWZero(ks, PerKey(rs, w));
    } else {
      var rs' := rs[..|rs| - 1];
      var r := rs[|rs| - 1];
      Snoc(rs);
      KeysOfAppend(rs', r);
      Conservation(ks, rs', w);
      var ind: string -> int := k => if k == r.key then w(r.entry) else 0;
      forall k | k in ks ensures PerKey(rs, w)(k) == PerKey(rs', w)(k) + ind(k) {
        OnlyAppend(k, rs', r);
        SumWAppend(Only(k, rs'), r.entry, w);
      }
      SumWPointwise(ks, PerKey(rs', w), ind, PerKey(rs, w));
      SumWSingle(ks, r.key, w(r.entry), ind);
      EntriesAppend(rs', r);
      SumWAppend(Entries(rs'), r.entry, w);
    }
  }

  /**
   * Conservation through routing: over distinct keys covering every routed key, the per-key
   * sums of a weight that relocation keeps add up to the weight of the resolving inputs.
   */
  lemma GroupConservation<T>(ks: seq<string>, s: seq<T>, lineOf: T -> int, at: (T, int) -> T,
                             route: int -> Option<Target>, w: T -> int)
    requires Distinct(ks)
    requires forall k :: k in KeysOf(RouteAll(s, lineOf, at, route)) ==> k in ks
    requires forall e, l :: w(at(e, l)) == w(e)
    ensures SumW(ks, PerKey(RouteAll(s, lineOf, at, route), w)) == SumW(Resolving(s, lineOf, route), w)
  {
    Conservation(ks, RouteAll(s, lineOf, at, route), w);
    RoutedWeight(s, lineOf, at, route, w);
  }
}
