/** Concatenating mapped lists, taking a bounded number of elements from the front, and an unused identifier. */
module Lists {
  function Take<T>(s: seq<T>, n: nat): seq<T> {
    if |s| <= n then s else s[..n]
  }

  function FlatMap<A, T>(f: A -> seq<T>, xs: seq<A>): seq<T> {
    if xs == [] then [] else f(xs[0]) + FlatMap(f, xs[1..])
  }

  /** What a scan of `xs` has collected and has yet to collect, relative to the whole. */
  ghost predicate OnTrack<A, T>(f: A -> seq<T>, xs: seq<A>, i: nat, acc: seq<T>, found: seq<T>) {
    i <= |xs| && acc + FlatMap(f, xs[i..]) == found + FlatMap(f, xs)
  }

  lemma ScanStart<A, T>(f: A -> seq<T>, xs: seq<A>, found: seq<T>)
    ensures OnTrack(f, xs, 0, found, found)
  {
    assert xs[0..] == xs;
  }

  /** Scanning one more element keeps on track; a scan cut off at the limit already has its final result. */
  lemma ScanStep<A, T>(f: A -> seq<T>, xs: seq<A>, i: nat, acc: seq<T>, found: seq<T>, limit: nat)
    requires OnTrack(f, xs, i, acc, found) && i < |xs|
    ensures OnTrack(f, xs, i + 1, acc + f(xs[i]), found)
    ensures |acc + f(xs[i])| >= limit ==> Take(acc + f(xs[i]), limit) == Take(found + FlatMap(f, xs), limit)
  {
    assert xs[i..][1..] == xs[i + 1..];
    assert acc + (f(xs[i]) + FlatMap(f, xs[i + 1..])) == (acc + f(xs[i])) + FlatMap(f, xs[i + 1..]);
  }

  lemma ScanEnd<A, T>(f: A -> seq<T>, xs: seq<A>, acc: seq<T>, found: seq<T>)
    requires OnTrack(f, xs, |xs|, acc, found)
    ensures acc == found + FlatMap(f, xs)
  {
    assert xs[|xs|..] == [] && acc + [] == acc;
  }

  lemma {:induction false} FlatMapConcat<A, T>(f: A -> seq<T>, xs: seq<A>, ys: seq<A>)
    ensures FlatMap(f, xs + ys) == FlatMap(f, xs) + FlatMap(f, ys)
  {
    if xs == [] {
      assert xs + ys == ys;
    } else {
      FlatMapConcat(f, xs[1..], ys);
      assert (xs + ys)[1..] == xs[1..] + ys;
    }
  }

  lemma FlatMapSmall<A, T>(f: A -> seq<T>, x: A, y: A)
    ensures FlatMap(f, [x]) == f(x) && FlatMap(f, [x, y]) == f(x) + f(y)
  {
    assert FlatMap(f, [x]) == f(x) + [] && FlatMap(f, [y]) == f(y) + [];
    assert [x, y][1..] == [y];
  }

  lemma {:induction false} FlatMapMember<A, T>(f: A -> seq<T>, xs: seq<A>, y: T)
    ensures y in FlatMap(f, xs) <==> exists i :: 0 <= i < |xs| && y in f(xs[i])
  {
    if xs == [] {
    } else {
      FlatMapMember(f, xs[1..], y);
      assert forall i :: 0 <= i < |xs[1..]| ==> xs[1..][i] == xs[i + 1];
      if i :| 0 <= i < |xs| && y in f(xs[i]) {
        if i > 0 { assert xs[1..][i - 1] == xs[i]; }
      }
    }
  }

  ghost predicate Ascending<T>(key: T -> int, s: seq<T>) {
    forall i, j :: 0 <= i < j < |s| ==> key(s[i]) < key(s[j])
  }

  ghost predicate AllBefore<T>(key: T -> int, a: seq<T>, b: seq<T>) {
    forall x, y :: x in a && y in b ==> key(x) < key(y)
  }

  /** Ascending pieces, each wholly before every later one, concatenate to an ascending list. */
  lemma {:induction false} FlatMapAscends<A, T>(key: T -> int, f: A -> seq<T>, xs: seq<A>)
    requires forall i :: 0 <= i < |xs| ==> Ascending(key, f(xs[i]))
    requires forall i, j :: 0 <= i < j < |xs| ==> AllBefore(key, f(xs[i]), f(xs[j]))
    ensures Ascending(key, FlatMap(f, xs))
  {
    if xs == [] {
    } else {
      var rest := xs[1..];
      assert forall i :: 0 <= i < |rest| ==> rest[i] == xs[i + 1];
      FlatMapAscends(key, f, rest);
      var head, tail := f(xs[0]), FlatMap(f, rest);
      forall x, y | x in head && y in tail ensures key(x) < key(y) {
        FlatMapMember(f, rest, y);
        var i :| 0 <= i < |rest| && y in f(rest[i]);
        assert AllBefore(key, f(xs[0]), f(xs[i + 1]));
      }
      AscendingJoin(key, head, tail);
    }
  }

  lemma AscendingJoin<T>(key: T -> int, a: seq<T>, b: seq<T>)
    requires Ascending(key, a) && Ascending(key, b) && AllBefore(key, a, b)
    ensures Ascending(key, a + b)
  {
  }

  lemma AscendingSplit<T>(key: T -> int, a: seq<T>, b: seq<T>)
    requires Ascending(key, a + b)
    ensures Ascending(key, a) && Ascending(key, b) && AllBefore(key, a, b)
  {
    var s := a + b;
    forall i, j | 0 <= i < j < |a| ensures key(a[i]) < key(a[j]) {
      assert s[i] == a[i] && s[j] == a[j];
    }
    forall i, j | 0 <= i < j < |b| ensures key(b[i]) < key(b[j]) {
      assert s[|a| + i] == b[i] && s[|a| + j] == b[j];
    }
    forall x, y | x in a && y in b ensures key(x) < key(y) {
      var i :| 0 <= i < |a| && a[i] == x;
      var j :| 0 <= j < |b| && b[j] == y;
      assert s[i] == x && s[|a| + j] == y;
    }
  }

  /** An ascending concatenation has ascending pieces, each wholly before every later one. */
  lemma {:induction false} AscendingPieces<A, T>(key: T -> int, f: A -> seq<T>, xs: seq<A>, i: nat, j: nat)
    requires Ascending(key, FlatMap(f, xs)) && i <= j < |xs|
    ensures Ascending(key, f(xs[i])) && (i < j ==> AllBefore(key, f(xs[i]), f(xs[j])))
  {
    var rest := xs[1..];
    AscendingSplit(key, f(xs[0]), FlatMap(f, rest));
    if i > 0 {
      AscendingPieces(key, f, rest, i - 1, j - 1);
      assert rest[i - 1] == xs[i] && rest[j - 1] == xs[j];
    } else if j > 0 {
      assert rest[j - 1] == xs[j];
      forall x, y | x in f(xs[0]) && y in f(xs[j]) ensures key(x) < key(y) {
        FlatMapMember(f, rest, y);
      }
    }
  }

  lemma Unused(ids: set<nat>) returns (n: nat)
    ensures forall id :: id in ids ==> id < n
  {
    if ids == {} {
      n := 0;
    } else {
      var x :| x in ids;
      var m := Unused(ids - {x});
      n := if x < m then m else x + 1;
      assert forall id :: id in ids ==> id == x || id in ids - {x};
    }
  }
}
