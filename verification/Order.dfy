/** `ORDER BY` a text column that holds no value twice: the listing is then unique. */
module Order {
  import opened Pages

  /** Strict lexicographic order on strings. */
  predicate Before(a: string, b: string) {
    b != [] && (a == [] || a[0] < b[0] || (a[0] == b[0] && Before(a[1..], b[1..])))
  }

  /** The first difference is at i: one string ends there, or has the smaller character. */
  ghost predicate DiffersAt(a: string, b: string, i: nat) {
    i <= |a| && i < |b| && a[..i] == b[..i] && (i < |a| ==> a[i] < b[i])
  }

  lemma {:induction false} BeforeIff(a: string, b: string)
    ensures Before(a, b) <==> exists i: nat :: DiffersAt(a, b, i)
  {
    if a != [] && b != [] && a[0] == b[0] {
      BeforeIff(a[1..], b[1..]);
      if i: nat :| DiffersAt(a[1..], b[1..], i) {
        assert a[..i + 1] == [a[0]] + a[1..][..i] && b[..i + 1] == [b[0]] + b[1..][..i];
        assert DiffersAt(a, b, i + 1);
      }
      if i: nat :| DiffersAt(a, b, i) {
        assert a[1..][..i - 1] == a[..i][1..] && b[1..][..i - 1] == b[..i][1..];
        assert DiffersAt(a[1..], b[1..], i - 1);
      }
    } else if b != [] {
      assert DiffersAt(a, b, 0) <==> a == [] || a[0] < b[0];
      assert forall i: nat :: 0 < i <= |a| && i < |b| ==> a[..i][0] == a[0] && b[..i][0] == b[0];
    }
  }

  lemma {:induction false} BeforeAsymmetric(a: string, b: string)
    requires Before(a, b)
    ensures !Before(b, a) && a != b
  {
    if a != [] && a[0] == b[0] {
      BeforeAsymmetric(a[1..], b[1..]);
    }
  }

  lemma {:induction false} BeforeTransitive(a: string, b: string, c: string)
    requires Before(a, b) && Before(b, c)
    ensures Before(a, c)
  {
    if a != [] && a[0] == b[0] == c[0] {
      BeforeTransitive(a[1..], b[1..], c[1..]);
    }
  }

  lemma {:induction false} BeforeTotal(a: string, b: string)
    ensures Before(a, b) || Before(b, a) || a == b
  {
    if a != [] && b != [] && a[0] == b[0] {
      BeforeTotal(a[1..], b[1..]);
      assert a == [a[0]] + a[1..] && b == [b[0]] + b[1..];
    }
  }

  predicate Injective<T(==)>(s: set<T>, key: T -> string) {
    forall x, y :: x in s && y in s && key(x) == key(y) ==> x == y
  }

  predicate IsFirst<T(==)>(s: set<T>, key: T -> string, m: T) {
    m in s && forall x :: x in s && x != m ==> Before(key(m), key(x))
  }

  lemma {:induction false} FirstExists<T(!new)>(s: set<T>, key: T -> string)
    requires s != {} && Injective(s, key)
    ensures exists m :: IsFirst(s, key, m)
    decreases |s|
  {
    var x :| x in s;
    var rest := s - {x};
    if rest == {} {
      assert s == {x};
      assert IsFirst(s, key, x);
    } else {
      FirstExists(rest, key);
      var m :| IsFirst(rest, key, m);
      BeforeTotal(key(x), key(m));
      if Before(key(m), key(x)) {
        assert IsFirst(s, key, m);
      } else {
        assert x != m && Before(key(x), key(m));
        forall y | y in rest ensures Before(key(x), key(y)) {
          if y != m { BeforeTransitive(key(x), key(m), key(y)); }
        }
        assert forall y :: y in s && y != x ==> y in rest && Before(key(x), key(y));
        assert IsFirst(s, key, x);
      }
    }
  }

  lemma FirstUnique<T(!new)>(s: set<T>, key: T -> string, m: T, n: T)
    requires IsFirst(s, key, m) && IsFirst(s, key, n)
    ensures m == n
  {
    if m != n { BeforeAsymmetric(key(m), key(n)); }
  }

  lemma FirstsAgree<T(!new)>(s: set<T>, key: T -> string)
    ensures forall m, n :: IsFirst(s, key, m) && IsFirst(s, key, n) ==> m == n
  {
    forall m, n | IsFirst(s, key, m) && IsFirst(s, key, n) ensures m == n {
      FirstUnique(s, key, m, n);
    }
  }

  /** What it means to list `s` ordered by `key`. */
  ghost predicate IsListing<T(!new)>(s: set<T>, key: T -> string, r: seq<T>) {
    && |r| == |s|
    && (forall x :: x in r <==> x in s)
    && (forall i, j :: 0 <= i < j < |r| ==> Before(key(r[i]), key(r[j])))
  }

  function First<T(!new,==)>(s: set<T>, key: T -> string): (m: T)
    requires s != {} && Injective(s, key)
    ensures IsFirst(s, key, m)
  {
    FirstExists(s, key);
    FirstsAgree(s, key);
    var m :| m in s && IsFirst(s, key, m);
    m
  }

  function SortBy<T(!new,==)>(s: set<T>, key: T -> string): (r: seq<T>)
    requires Injective(s, key)
    ensures IsListing(s, key, r)
    decreases |s|
  {
    if s == {} then []
    else
      var m := First(s, key);
      [m] + SortBy(s - {m}, key)
  }

  lemma ListingDistinct<T(!new)>(s: set<T>, key: T -> string, r: seq<T>)
    requires IsListing(s, key, r)
    ensures forall i, j :: 0 <= i < j < |r| ==> r[i] != r[j]
  {
    forall i, j | 0 <= i < j < |r| ensures r[i] != r[j] {
      BeforeAsymmetric(key(r[i]), key(r[j]));
    }
  }

  /** A set has only one listing, so the order of the pages is not a choice of the database. */
  lemma {:induction false} ListingUnique<T(!new)>(s: set<T>, key: T -> string, p: seq<T>, q: seq<T>)
    requires IsListing(s, key, p) && IsListing(s, key, q)
    ensures p == q
    decreases |s|
  {
    if s != {} {
      HeadIsFirst(s, key, p);
      HeadIsFirst(s, key, q);
      FirstUnique(s, key, p[0], q[0]);
      TailLists(s, key, p);
      TailLists(s, key, q);
      ListingUnique(s - {p[0]}, key, p[1..], q[1..]);
      assert p == [p[0]] + p[1..] && q == [q[0]] + q[1..];
    }
  }

  lemma HeadIsFirst<T(!new)>(s: set<T>, key: T -> string, r: seq<T>)
    requires IsListing(s, key, r) && s != {}
    ensures |r| > 0 && IsFirst(s, key, r[0])
  {
    forall x | x in s && x != r[0] ensures Before(key(r[0]), key(x)) {
      var j :| 0 <= j < |r| && r[j] == x;
    }
  }

  lemma TailLists<T(!new)>(s: set<T>, key: T -> string, r: seq<T>)
    requires IsListing(s, key, r) && |r| > 0
    ensures IsListing(s - {r[0]}, key, r[1..])
  {
    ListingDistinct(s, key, r);
    forall x ensures x in r[1..] <==> x in s - {r[0]} {
      if x in s - {r[0]} {
        var j :| 0 <= j < |r| && r[j] == x;
        assert r[1..][j - 1] == x;
      }
    }
  }

  // ---- Ranks

  function Preceding<T(!new,==)>(s: set<T>, key: T -> string, k: string): set<T> {
    set x | x in s && Before(key(x), k)
  }

  function Elements<T(==)>(r: seq<T>): set<T> {
    set x | x in r
  }

  lemma {:induction false} PrefixSize<T>(r: seq<T>, n: nat)
    requires n <= |r| && forall i, j :: 0 <= i < j < |r| ==> r[i] != r[j]
    ensures |Elements(r[..n])| == n
  {
    if n > 0 {
      PrefixSize(r, n - 1);
      assert Elements(r[..n]) == Elements(r[..n - 1]) + {r[n - 1]};
    }
  }

  /** Exactly i elements come before the one at index i. */
  lemma ListingRank<T(!new)>(s: set<T>, key: T -> string, r: seq<T>, i: nat)
    requires IsListing(s, key, r) && i < |r|
    ensures |Preceding(s, key, key(r[i]))| == i
  {
    ListingDistinct(s, key, r);
    PrefixSize(r, i);
    forall x ensures x in Preceding(s, key, key(r[i])) <==> x in r[..i] {
      if x in Preceding(s, key, key(r[i])) {
        var j :| 0 <= j < |r| && r[j] == x;
        BeforeAsymmetric(key(x), key(r[i]));
        assert j < i;
      }
    }
    assert Preceding(s, key, key(r[i])) == Elements(r[..i]);
  }

  /** A page holds exactly the elements that have between `offset` and `offset + count` others before them. */
  lemma PageByRank<T(!new)>(s: set<T>, key: T -> string, r: seq<T>, offset: nat, count: nat, x: T)
    requires IsListing(s, key, r)
    ensures x in Page(r, offset, count) <==> x in s && offset <= |Preceding(s, key, key(x))| < offset + count
  {
    var page := Page(r, offset, count);
    if x in page {
      var i :| 0 <= i < |page| && page[i] == x;
      ListingRank(s, key, r, offset + i);
    }
    if x in s {
      var j :| 0 <= j < |r| && r[j] == x;
      ListingRank(s, key, r, j);
      if offset <= j < offset + count {
        assert page[j - offset] == x;
      }
    }
  }
}
