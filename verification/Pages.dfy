/** Pages of an ordered query result, and what a loop over pages ends up with. */
module Pages {

  function Min(a: int, b: int): (m: int)
    ensures m <= a && m <= b && (m == a || m == b)
  {
    if a < b then a else b
  }

  /** `OFFSET offset LIMIT count` over an ordered result. */
  function Page<T>(s: seq<T>, offset: nat, count: nat): (p: seq<T>)
    ensures |p| == if offset < |s| then Min(count, |s| - offset) else 0
    ensures forall i :: 0 <= i < |p| ==> p[i] == s[offset + i]
  {
    if offset < |s| then s[offset..Min(offset + count, |s|)] else []
  }

  /** The elements whose index is kept, in order. */
  function Select<T>(s: seq<T>, keep: nat -> bool): seq<T> {
    if s == [] then []
    else
      var n := |s| - 1;
      Select(s[..n], keep) + if keep(n) then [s[n]] else []
  }

  lemma {:induction false} SelectCong<T>(s: seq<T>, p: nat -> bool, q: nat -> bool)
    requires forall i: nat :: i < |s| ==> p(i) == q(i)
    ensures Select(s, p) == Select(s, q)
  {
    if s != [] {
      SelectCong(s[..|s| - 1], p, q);
    }
  }

  lemma {:induction false} SelectAll<T>(s: seq<T>, keep: nat -> bool)
    requires forall i: nat :: i < |s| ==> keep(i)
    ensures Select(s, keep) == s
  {
    if s != [] {
      SelectAll(s[..|s| - 1], keep);
    }
  }

  /** A whole run of indices is kept: reading it appends it as it stands. */
  lemma {:induction false} SelectKept<T>(s: seq<T>, a: nat, b: nat, keep: nat -> bool)
    requires a <= b <= |s|
    requires forall i: nat :: a <= i < b ==> keep(i)
    ensures Select(s[..b], keep) == Select(s[..a], keep) + s[a..b]
  {
    if a < b {
      SelectKept(s, a, b - 1, keep);
      assert s[..b][..b - 1] == s[..b - 1];
      assert s[a..b] == s[a..b - 1] + [s[b - 1]];
    }
  }

  /** A whole run of indices is dropped: the selection does not grow. */
  lemma {:induction false} SelectDropped<T>(s: seq<T>, a: nat, b: nat, keep: nat -> bool)
    requires a <= b <= |s|
    requires forall i: nat :: a <= i < b ==> !keep(i)
    ensures Select(s[..b], keep) == Select(s[..a], keep)
  {
    if a < b {
      SelectDropped(s, a, b - 1, keep);
      assert s[..b][..b - 1] == s[..b - 1];
    }
  }

  /** Selection keeps exactly the elements at kept indices. */
  lemma {:induction false} SelectMembers<T>(s: seq<T>, keep: nat -> bool)
    ensures forall x :: x in Select(s, keep) ==> exists i: nat :: i < |s| && keep(i) && s[i] == x
    ensures forall i: nat :: i < |s| && keep(i) ==> s[i] in Select(s, keep)
  {
    if s != [] {
      SelectMembers(s[..|s| - 1], keep);
    }
  }

  ghost predicate Distinct<T>(s: seq<T>) {
    forall i, j :: 0 <= i < j < |s| ==> s[i] != s[j]
  }

  lemma {:induction false} SelectDistinct<T>(s: seq<T>, keep: nat -> bool)
    requires Distinct(s)
    ensures Distinct(Select(s, keep))
  {
    if s != [] {
      var n := |s| - 1;
      SelectDistinct(s[..n], keep);
      SelectMembers(s[..n], keep);
      assert s[n] !in Select(s[..n], keep);
    }
  }

  /** The start of the page an index falls on, when pages are `batch` long. */
  function PageStart(i: nat, batch: nat): (start: nat)
    requires batch > 0
    ensures start <= i < start + batch && Aligned(start, batch)
  {
    if i < batch then 0 else batch + PageStart(i - batch, batch)
  }

  /** The offsets a loop stepping by `batch` from 0 goes through. */
  predicate Aligned(offset: nat, batch: nat)
    requires batch > 0
  {
    offset == 0 || (offset >= batch && Aligned(offset - batch, batch))
  }

  lemma {:induction false} PageStartOf(i: nat, offset: nat, batch: nat)
    requires batch > 0 && Aligned(offset, batch)
    requires offset <= i < offset + batch
    ensures PageStart(i, batch) == offset
  {
    if offset > 0 {
      PageStartOf(i - batch, offset - batch, batch);
    }
  }
}
