/** Ranking of the user's repositories: the copy sorted by
    `(a, b) => b.stargazers_count - a.stargazers_count` and cut to the first
    six entries. `Array.prototype.sort` is stable, so the ranking is the
    stable sort by star count, highest first; it is defined here as an
    insertion sort and characterised by its properties, and
    `StableSortIsUnique` shows that every stable descending sort agrees
    with it. */
module Ranking {
  import opened Repos

  /** `.slice(0, 6)`: the number of entries the showcase keeps. */
  const TopCount: nat := 6

  /** Highest star count first. */
  predicate NonIncreasing(s: seq<Repo>) {
    forall i, j :: 0 <= i < j < |s| ==> s[i].stars >= s[j].stars
  }

  /** The records of `s` with `k` stars, in their order in `s`. */
  function WithStars(s: seq<Repo>, k: nat): seq<Repo> {
    if s == [] then []
    else (if s[0].stars == k then [s[0]] else []) + WithStars(s[1..], k)
  }

  /** Every record of `s` with `k` stars is among `WithStars(s, k)`. */
  lemma {:induction false} WithStarsHolds(s: seq<Repo>, i: nat)
    requires i < |s|
    ensures s[i] in WithStars(s, s[i].stars)
  {
    if i > 0 {
      WithStarsHolds(s[1..], i - 1);
    }
  }

  /** `WithStars(s, k)` only holds records of `s`. */
  lemma {:induction false} WithStarsFrom(s: seq<Repo>, k: nat, x: Repo)
    requires x in WithStars(s, k)
    ensures x in s && x.stars == k
  {
    if s != [] && !(s[0].stars == k && x == s[0]) {
      WithStarsFrom(s[1..], k, x);
    }
  }

  /** `r` keeps, for every star count, the records of `s` with that count in
      the order they had in `s`: no two equally starred records swap. */
  ghost predicate KeepsTieOrder(s: seq<Repo>, r: seq<Repo>) {
    forall k: nat :: WithStars(r, k) == WithStars(s, k)
  }

  lemma {:induction false} WithStarsAppend(a: seq<Repo>, b: seq<Repo>, k: nat)
    ensures WithStars(a + b, k) == WithStars(a, k) + WithStars(b, k)
  {
    if a == [] {
      assert a + b == b;
    } else {
      assert (a + b)[1..] == a[1..] + b;
      WithStarsAppend(a[1..], b, k);
    }
  }

  /** Places `x` in front of the first record with at most as many stars,
      i.e. after every record that has strictly more. */
  function Insert(x: Repo, s: seq<Repo>): (r: seq<Repo>)
    ensures |r| == |s| + 1
    ensures multiset(r) == multiset(s) + multiset{x}
  {
    if s == [] || x.stars >= s[0].stars then [x] + s
    else
      assert s == [s[0]] + s[1..];
      [s[0]] + Insert(x, s[1..])
  }

  /** A bound on the stars of `x` and of every record of `s` bounds every
      record of `Insert(x, s)`. */
  lemma {:induction false} InsertBounded(x: Repo, s: seq<Repo>, m: nat)
    requires x.stars <= m
    requires forall i :: 0 <= i < |s| ==> s[i].stars <= m
    ensures forall i :: 0 <= i < |Insert(x, s)| ==> Insert(x, s)[i].stars <= m
  {
    if s != [] && x.stars < s[0].stars {
      InsertBounded(x, s[1..], m);
    }
  }

  lemma {:induction false} InsertKeepsOrder(x: Repo, s: seq<Repo>)
    requires NonIncreasing(s)
    ensures NonIncreasing(Insert(x, s))
  {
    if s != [] && x.stars < s[0].stars {
      InsertKeepsOrder(x, s[1..]);
      InsertBounded(x, s[1..], s[0].stars);
    }
  }

  /** `x` goes after every record with more stars, so it lands in front of
      the records with as many stars as it has. */
  lemma {:induction false} InsertWithStars(x: Repo, s: seq<Repo>, k: nat)
    ensures WithStars(Insert(x, s), k) == (if x.stars == k then [x] else []) + WithStars(s, k)
  {
    if s == [] || x.stars >= s[0].stars {
      assert ([x] + s)[1..] == s;
    } else {
      InsertWithStars(x, s[1..], k);
      var t := Insert(x, s[1..]);
      assert ([s[0]] + t)[1..] == t;
    }
  }

  /** The stable sort by star count, highest first (`[...data].sort(...)`). */
  function SortByStars(s: seq<Repo>): (r: seq<Repo>)
    ensures |r| == |s|
    ensures multiset(r) == multiset(s)
  {
    if s == [] then []
    else
      assert s == [s[0]] + s[1..];
      Insert(s[0], SortByStars(s[1..]))
  }

  /** The ranking is descending by stars and keeps the API's order among
      equally starred records. */
  lemma {:induction false} SortByStarsIsStableSort(s: seq<Repo>)
    ensures NonIncreasing(SortByStars(s))
    ensures KeepsTieOrder(s, SortByStars(s))
  {
    if s != [] {
      var t := SortByStars(s[1..]);
      SortByStarsIsStableSort(s[1..]);
      InsertKeepsOrder(s[0], t);
      forall k: nat
        ensures WithStars(SortByStars(s), k) == WithStars(s, k)
      {
        InsertWithStars(s[0], t, k);
      }
    }
  }

  /** Two descending orders that keep the same tie order are the same
      sequence: the sorted result does not depend on the sort algorithm, only
      on its being stable. */
  lemma {:induction false} StableSortIsUnique(s: seq<Repo>, r: seq<Repo>)
    requires NonIncreasing(r) && KeepsTieOrder(s, r)
    ensures r == SortByStars(s)
  {
    SortByStarsIsStableSort(s);
    SameStarsSameOrder(r, SortByStars(s));
  }

  lemma {:induction false} SameStarsSameOrder(a: seq<Repo>, b: seq<Repo>)
    requires NonIncreasing(a) && NonIncreasing(b)
    requires forall k: nat :: WithStars(a, k) == WithStars(b, k)
    ensures a == b
  {
    if a == [] || b == [] {
      if a != [] {
        WithStarsHolds(a, 0);
        assert false;
      } else if b != [] {
        WithStarsHolds(b, 0);
        assert false;
      }
    } else {
      var x, y := a[0], b[0];
      WithStarsHolds(b, 0);
      assert WithStars(a, y.stars) == WithStars(b, y.stars);
      WithStarsFrom(a, y.stars, y);
      WithStarsHolds(a, 0);
      assert WithStars(a, x.stars) == WithStars(b, x.stars);
      WithStarsFrom(b, x.stars, x);
      assert x.stars == y.stars;
      var ax, bx := WithStars(a[1..], x.stars), WithStars(b[1..], x.stars);
      assert [x] + ax == [y] + bx by {
        assert WithStars(a, x.stars) == WithStars(b, x.stars);
      }
      assert x == y by {
        assert ([x] + ax)[0] == x && ([y] + bx)[0] == y;
      }
      forall k: nat
        ensures WithStars(a[1..], k) == WithStars(b[1..], k)
      {
        assert WithStars(a, k) == WithStars(b, k);
        if k == x.stars {
          assert ax == ([x] + ax)[1..] && bx == ([y] + bx)[1..];
        } else {
          var ak, bk := WithStars(a[1..], k), WithStars(b[1..], k);
          assert WithStars(a, k) == [] + ak && [] + ak == ak;
          assert WithStars(b, k) == [] + bk && [] + bk == bk;
        }
      }
      SameStarsSameOrder(a[1..], b[1..]);
      assert a == [x] + a[1..];
      assert b == [y] + b[1..];
    }
  }

  /** `sorted.slice(0, 6)`: the working list of the showcase. */
  function TopRepos(data: seq<Repo>): (w: seq<Repo>)
    ensures |w| == Min(TopCount, |data|)
    ensures NonIncreasing(w)
    ensures multiset(w) <= multiset(data)
  {
    var sorted := SortByStars(data);
    SortByStarsIsStableSort(data);
    var w := Slice(sorted, 0, TopCount);
    assert w == sorted[..|w|];
    assert sorted == w + sorted[|w|..];
    assert multiset(sorted) == multiset(w) + multiset(sorted[|w|..]);
    w
  }

  /** What the cut leaves out is never more starred than what it keeps. */
  lemma TopReposAreMostStarred(data: seq<Repo>, x: Repo)
    requires x in multiset(data) - multiset(TopRepos(data))
    ensures forall i :: 0 <= i < |TopRepos(data)| ==> TopRepos(data)[i].stars >= x.stars
  {
    var sorted, w := SortByStars(data), TopRepos(data);
    SortByStarsIsStableSort(data);
    var rest := sorted[|w|..];
    assert sorted == w + rest;
    assert multiset(sorted) == multiset(w) + multiset(rest);
    assert x in multiset(rest);
    var j :| 0 <= j < |rest| && rest[j] == x;
    forall i | 0 <= i < |w|
      ensures w[i].stars >= x.stars
    {
      assert sorted[i] == w[i] && sorted[|w| + j] == x;
    }
  }

  lemma {:induction false} WithStarsOfPrefix(s: seq<Repo>, n: nat, k: nat)
    requires n <= |s|
    ensures WithStars(s[..n], k) <= WithStars(s, k)
  {
    assert s == s[..n] + s[n..];
    WithStarsAppend(s[..n], s[n..], k);
  }

  /** Among equally starred records, the working list keeps the order the
      API returned them in: for every star count its records are a prefix
      of that count's records in `data`. */
  lemma TopReposKeepTieOrder(data: seq<Repo>, k: nat)
    ensures WithStars(TopRepos(data), k) <= WithStars(data, k)
  {
    var sorted := SortByStars(data);
    SortByStarsIsStableSort(data);
    assert WithStars(sorted, k) == WithStars(data, k);
    assert TopRepos(data) == sorted[..|TopRepos(data)|];
    WithStarsOfPrefix(sorted, |TopRepos(data)|, k);
  }
}
