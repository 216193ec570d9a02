/**
 * The array operations the front end builds its updates from: `filter`,
 * `find`/`findIndex`, and a `map` that rewrites only the elements a test picks.
 */
module Seqs {
  import opened Wrappers

  /** `s.filter(keep)`: the elements that pass, in their original order. */
  function Filter<T>(s: seq<T>, keep: T -> bool): (r: seq<T>)
    ensures |r| <= |s|
    ensures forall i :: 0 <= i < |r| ==> r[i] in s && keep(r[i])
    ensures forall i :: 0 <= i < |s| && keep(s[i]) ==> s[i] in r
    ensures (forall i :: 0 <= i < |s| ==> keep(s[i])) ==> r == s
    ensures (forall i :: 0 <= i < |s| ==> !keep(s[i])) ==> r == []
  {
    if s == [] then []
    else if keep(s[0]) then [s[0]] + Filter(s[1..], keep)
    else Filter(s[1..], keep)
  }

  /** Filtering keeps the order: it distributes over concatenation. */
  lemma {:induction false} FilterConcat<T>(a: seq<T>, b: seq<T>, keep: T -> bool)
    ensures Filter(a + b, keep) == Filter(a, keep) + Filter(b, keep)
    decreases |a|
  {
    if a != [] {
      assert (a + b)[0] == a[0] && (a + b)[1..] == a[1..] + b;
      FilterConcat(a[1..], b, keep);
      var rest := Filter(a[1..], keep);
      if keep(a[0]) {
        assert [a[0]] + (rest + Filter(b, keep)) == ([a[0]] + rest) + Filter(b, keep);
      }
    } else {
      assert a + b == b;
    }
  }

  /** One more element of a prefix joins the filtered prefix at the end exactly when it passes. */
  lemma FilterPrefixStep<T>(s: seq<T>, i: nat, keep: T -> bool)
    requires i < |s|
    ensures Filter(s[..i + 1], keep) == Filter(s[..i], keep) + (if keep(s[i]) then [s[i]] else [])
  {
    assert s[..i + 1] == s[..i] + [s[i]];
    FilterConcat(s[..i], [s[i]], keep);
    assert [s[i]][1..] == [];
  }

  /** `s.map(x => test(x) ? f(x) : x)`: picked elements are rewritten, the others and the order are kept. */
  function MapIf<T>(s: seq<T>, test: T -> bool, f: T -> T): (r: seq<T>)
    ensures |r| == |s|
    ensures forall i :: 0 <= i < |s| ==> r[i] == if test(s[i]) then f(s[i]) else s[i]
  {
    if s == [] then []
    else [if test(s[0]) then f(s[0]) else s[0]] + MapIf(s[1..], test, f)
  }

  /** Rewriting nothing changes nothing. */
  lemma MapIfNone<T>(s: seq<T>, test: T -> bool, f: T -> T)
    requires forall i :: 0 <= i < |s| ==> !test(s[i])
    ensures MapIf(s, test, f) == s
  {
  }

  /** `s.findIndex(p)` as an optional index: the first element that passes, if any. */
  function FindIndex<T>(s: seq<T>, p: T -> bool): (r: Option<nat>)
    ensures r.Some? ==> r.value < |s| && p(s[r.value]) && forall j :: 0 <= j < r.value ==> !p(s[j])
    ensures r.None? <==> forall j :: 0 <= j < |s| ==> !p(s[j])
  {
    if s == [] then None
    else if p(s[0]) then Some(0)
    else match FindIndex(s[1..], p)
      case None => None
      case Some(i) => Some(i + 1)
  }

  /** `s.find(p)`: the first element that passes, or `undefined`. */
  function Find<T>(s: seq<T>, p: T -> bool): (r: Option<T>)
    ensures r.Some? ==> r.value in s && p(r.value)
    ensures r.Some? ==> exists i :: 0 <= i < |s| && s[i] == r.value && forall j :: 0 <= j < i ==> !p(s[j])
    ensures r.None? <==> forall j :: 0 <= j < |s| ==> !p(s[j])
  {
    match FindIndex(s, p)
    case None => None
    case Some(i) => Some(s[i])
  }

  /** `s.flatMap(f)`: the pieces concatenated in order. */
  function Flatten<T>(s: seq<seq<T>>): (r: seq<T>)
    ensures (forall i :: 0 <= i < |s| ==> s[i] == []) <==> r == []
  {
    if s == [] then [] else s[0] + Flatten(s[1..])
  }

  /** Flattening distributes over concatenation: the pieces stay in order. */
  lemma {:induction false} FlattenConcat<T>(a: seq<seq<T>>, b: seq<seq<T>>)
    ensures Flatten(a + b) == Flatten(a) + Flatten(b)
    decreases |a|
  {
    if a == [] {
      assert a + b == b;
    } else {
      assert (a + b)[1..] == a[1..] + b;
      FlattenConcat(a[1..], b);
    }
  }
}
