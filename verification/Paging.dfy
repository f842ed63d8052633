/**
 * The two loops that read a whole table page by page: the listing of the command line client
 * (internal/cli/commands/clients/list.go) and the subscription to all topics at start-up
 * (pkg/c2/c2.go). Both ask for pages of 100; the page size is a parameter here.
 */
module Paging {
  import opened Pages
  import opened Order
  import opened Store
  import opened Database

  const MAX_PAGE_SIZE: nat := 100
  const SUBSCRIBE_BATCH: nat := 100

  /** A page reaches only the elements within the query limit of its start. */
  function WithinLimit(batch: nat): nat -> bool
    requires batch > 0
  {
    (i: nat) => i - PageStart(i, batch) < QUERY_LIMIT
  }

  /** What reading `items` page by page comes to. */
  function Visited<T>(items: seq<T>, batch: nat): seq<T>
    requires batch > 0
  {
    Select(items, WithinLimit(batch))
  }

  lemma {:induction false} SelectShortens<T>(s: seq<T>, keep: nat -> bool)
    ensures |Select(s, keep)| <= |s|
    ensures (exists i: nat :: i < |s| && !keep(i)) ==> |Select(s, keep)| < |s|
  {
    if s != [] {
      SelectShortens(s[..|s| - 1], keep);
    }
  }

  /** Paging comes to everything exactly when pages, or the whole table, fit in one query. */
  lemma VisitsAllIff<T>(items: seq<T>, batch: nat)
    requires batch > 0
    ensures Visited(items, batch) == items <==> batch <= QUERY_LIMIT || |items| <= QUERY_LIMIT
  {
    var keep := WithinLimit(batch);
    if batch <= QUERY_LIMIT || |items| <= QUERY_LIMIT {
      forall i: nat | i < |items| ensures keep(i) {
        var _ := PageStart(i, batch);
      }
      SelectAll(items, keep);
    } else {
      PageStartOf(QUERY_LIMIT, 0, batch);
      assert !keep(QUERY_LIMIT);
      SelectShortens(items, keep);
    }
  }

  /** One more page: what is within the limit of its start is added, the rest of it is not. */
  lemma VisitsPage<T>(s: seq<T>, done: nat, batch: nat)
    requires batch > 0 && Aligned(done, batch) && done <= |s| <= done + batch
    ensures Visited(s, batch) == Visited(s[..done], batch) + s[done..Min(done + QUERY_LIMIT, |s|)]
  {
    hide Select, PageStart, Aligned;
    var reach, keep := Min(done + QUERY_LIMIT, |s|), WithinLimit(batch);
    forall i: nat | done <= i < |s| ensures keep(i) <==> i < reach {
      PageStartOf(i, done, batch);
    }
    SelectKept(s, done, reach, keep);
    SelectDropped(s, reach, |s|, keep);
    assert s[..|s|] == s;
  }

  lemma PageGrows<T>(all: seq<T>, offset: nat, done: nat, count: nat)
    ensures var s := Page(all, offset, done + count);
      && Page(all, offset, done) == s[..Min(done, |s|)]
      && Page(all, offset + done, Clamped(count)) == (if |s| <= done then [] else s[done..Min(done + QUERY_LIMIT, |s|)])
  {
  }

  /** The elements from `offset` on, at most `done` of them, grow by one page. */
  lemma VisitsNextPage<T>(all: seq<T>, offset: nat, done: nat, count: nat, batch: nat)
    requires batch > 0 && Aligned(done, batch) && 0 < count <= batch
    ensures Visited(Page(all, offset, done + count), batch)
         == Visited(Page(all, offset, done), batch) + Page(all, offset + done, Clamped(count))
    ensures Aligned(done + batch, batch)
  {
    hide Visited, Page;
    var s := Page(all, offset, done + count);
    PageGrows(all, offset, done, count);
    if |s| > done {
      VisitsPage(s, done, batch);
    } else {
      assert s[..|s|] == s;
    }
  }

  /** Before the first page, and after the last. */
  lemma VisitsEnds<T>(all: seq<T>, offset: nat, batch: nat)
    requires batch > 0
    ensures Visited(Page(all, offset, 0), batch) == [] && Aligned(0, batch)
    ensures forall fails: nat -> bool :: NoneFails(fails, offset, 0, batch)
    ensures forall n: nat :: n >= |all| ==> Page(all, 0, n) == all
  {
  }

  // ---- Failures, by the offset of the page

  /** No page that starts before `reach` fails. */
  ghost predicate NoneFails(fails: nat -> bool, offset: nat, reach: nat, batch: nat)
    requires batch > 0
  {
    forall done: nat :: done < reach && Aligned(done, batch) ==> !fails(offset + done)
  }

  lemma {:induction false} NoneBetween(a: nat, b: nat, batch: nat)
    requires batch > 0 && Aligned(a, batch) && a < b < a + batch
    ensures !Aligned(b, batch)
  {
    if a > 0 {
      NoneBetween(a - batch, b - batch, batch);
    }
  }

  lemma NextFailsOrNot(fails: nat -> bool, offset: nat, done: nat, size: nat, reach: nat, batch: nat)
    requires batch > 0 && Aligned(done, batch) && NoneFails(fails, offset, done, batch)
    requires done < reach && 0 < size <= batch
    ensures fails(offset + done) ==> !NoneFails(fails, offset, reach, batch)
    ensures !fails(offset + done) ==> NoneFails(fails, offset, done + size, batch)
  {
    forall at: nat | done < at < done + size ensures !Aligned(at, batch) {
      NoneBetween(done, at, batch);
    }
  }

  // ---- The listing loop

  /** How many items the user asked for; a count of 0 asks for all of them. */
  function Wanted(total: nat, count: nat): nat {
    if count > 0 then Min(total, count) else total
  }

  /**
   * Prints client names page by page. `fails` says at which offsets a fetch fails; the first one ends the loop,
   * after the pages before it were printed.
   */
  method ListClients(db: GormDB, offset: nat, count: nat, pageSize: nat, countFails: bool, fails: nat -> bool)
    returns (printed: seq<Client>, ok: bool, ghost fetched: nat)
    requires db.Valid() && pageSize > 0
    ensures var all := AllClients(db.tables);
      && printed == Visited(Page(all, offset, fetched), pageSize) && fetched <= Wanted(|all|, count)
      && (ok ==> fetched == Wanted(|all|, count))
    ensures !ok && !countFails ==>
      Aligned(fetched, pageSize) && fails(offset + fetched) && NoneFails(fails, offset, fetched, pageSize)
    ensures ok <==> !countFails && NoneFails(fails, offset, Wanted(|AllClients(db.tables)|, count), pageSize)
  {
    hide Visited, Page, Aligned, NoneFails, AllClients;
    ghost var all := AllClients(db.tables);
    VisitsEnds(all, offset, pageSize);
    printed, fetched := [], 0;
    var total := db.CountClients(countFails);
    if total.Err? {
      return [], false, 0;
    }
    var totalCount := total.value;
    if count > 0 {
      totalCount := Min(totalCount, count);
    }
    ghost var wanted := Wanted(|all|, count);
    var currentOffset := offset;
    while totalCount > 0
      invariant 0 <= totalCount && fetched + totalCount == wanted
      invariant currentOffset == offset + fetched
      invariant totalCount > 0 ==> Aligned(fetched, pageSize)
      invariant printed == Visited(Page(all, offset, fetched), pageSize)
      invariant NoneFails(fails, offset, fetched, pageSize)
    {
      var size := Min(pageSize, totalCount);
      var page := db.GetClientsRange(currentOffset, size, fails(currentOffset));
      NextFailsOrNot(fails, offset, fetched, size, wanted, pageSize);
      if page.Err? {
        return printed, false, fetched;
      }
      VisitsNextPage(all, offset, fetched, size, pageSize);
      currentOffset := currentOffset + size;
      totalCount := totalCount - size;
      printed := printed + page.value;
      fetched := fetched + size;
    }
    ok := true;
  }

  /** What the command prints when nothing fails: one slice of the table in name order. */
  lemma ListingIsOneSlice<T>(all: seq<T>, offset: nat, count: nat)
    ensures Visited(Page(all, offset, Wanted(|all|, count)), MAX_PAGE_SIZE)
         == if count > 0 then Page(all, offset, count) else Page(all, offset, |all|)
  {
    VisitsAllIff(Page(all, offset, Wanted(|all|, count)), MAX_PAGE_SIZE);
    assert count > 0 ==> Page(all, offset, Wanted(|all|, count)) == Page(all, offset, count);
  }

  // ---- The start-up loop

  function Flatten<T>(batches: seq<seq<T>>): seq<T> {
    if batches == [] then [] else Flatten(batches[..|batches| - 1]) + batches[|batches| - 1]
  }

  /**
   * Subscribes to every topic, batch by batch, and gives the batches subscribed to. A failed read or
   * subscription ends the loop.
   */
  method SubscribeExisting(db: GormDB, batchSize: nat, countFails: bool, readFails: nat -> bool,
                           subscribeFails: nat -> bool)
    returns (batches: seq<seq<string>>, ok: bool, ghost reached: nat)
    requires batchSize > 0
    ensures Flatten(batches) == Visited(Page(AllTopics(db.tables), 0, reached), batchSize)
    ensures ok ==> Flatten(batches) == Visited(AllTopics(db.tables), batchSize)
    ensures forall i :: 0 <= i < |batches| ==> |batches[i]| <= Clamped(batchSize)
    ensures !ok && !countFails ==>
      && Aligned(reached, batchSize) && (readFails(reached) || subscribeFails(reached))
      && NoneFails(readFails, 0, reached, batchSize) && NoneFails(subscribeFails, 0, reached, batchSize)
    ensures var all := AllTopics(db.tables);
      ok <==> !countFails && NoneFails(readFails, 0, |all|, batchSize) && NoneFails(subscribeFails, 0, |all|, batchSize)
  {
    hide Visited, Page, Aligned, NoneFails, AllTopics, Flatten;
    ghost var all := AllTopics(db.tables);
    VisitsEnds(all, 0, batchSize);
    FlattenNone<string>();
    batches, reached := [], 0;
    var topicCount := db.CountTopicKeys(countFails);
    if topicCount.Err? {
      return [], false, 0;
    }
    var offset := 0;
    while offset < topicCount.value
      invariant reached == offset && Aligned(offset, batchSize)
      invariant Flatten(batches) == Visited(Page(all, 0, reached), batchSize)
      invariant forall i :: 0 <= i < |batches| ==> |batches[i]| <= Clamped(batchSize)
      invariant NoneFails(readFails, 0, reached, batchSize) && NoneFails(subscribeFails, 0, reached, batchSize)
    {
      var topics := db.GetTopicsRange(offset, batchSize, readFails(offset));
      NextFailsOrNot(readFails, 0, reached, batchSize, |all|, batchSize);
      NextFailsOrNot(subscribeFails, 0, reached, batchSize, |all|, batchSize);
      if topics.Err? || subscribeFails(offset) {
        return batches, false, reached;
      }
      VisitsNextPage(all, 0, reached, batchSize, batchSize);
      FlattenMore(batches, topics.value);
      batches := batches + [topics.value];
      offset := offset + batchSize;
      reached := offset;
    }
    FewerFail(readFails, 0, reached, |all|, batchSize);
    FewerFail(subscribeFails, 0, reached, |all|, batchSize);
    ok := true;
  }

  lemma FewerFail(fails: nat -> bool, offset: nat, reach: nat, less: nat, batch: nat)
    requires batch > 0 && less <= reach && NoneFails(fails, offset, reach, batch)
    ensures NoneFails(fails, offset, less, batch)
  {
  }

  lemma FlattenNone<T>()
    ensures Flatten<T>([]) == []
  {
  }

  lemma FlattenMore<T>(batches: seq<seq<T>>, batch: seq<T>)
    ensures Flatten(batches + [batch]) == Flatten(batches) + batch
  {
    assert (batches + [batch])[..|batches|] == batches;
  }

  ghost predicate InOneBatch<T>(batches: seq<seq<T>>, x: T) {
    exists i :: 0 <= i < |batches| && x in batches[i] && forall j :: 0 <= j < |batches| && j != i ==> x !in batches[j]
  }

  lemma {:induction false} FlattenMembers<T>(batches: seq<seq<T>>, i: nat)
    requires i < |batches|
    ensures forall x :: x in batches[i] ==> x in Flatten(batches)
  {
    if i < |batches| - 1 {
      FlattenMembers(batches[..|batches| - 1], i);
    }
  }

  lemma DistinctSplits<T>(a: seq<T>, b: seq<T>)
    requires Distinct(a + b)
    ensures Distinct(a) && forall x :: x in a ==> x !in b
  {
    var s := a + b;
    assert forall i :: 0 <= i < |a| ==> a[i] == s[i];
    assert forall i :: 0 <= i < |b| ==> b[i] == s[|a| + i];
  }

  lemma {:induction false} FlattenedOnce<T>(batches: seq<seq<T>>, x: T)
    requires Distinct(Flatten(batches)) && x in Flatten(batches)
    ensures InOneBatch(batches, x)
  {
    var n := |batches| - 1;
    var front, last := batches[..n], batches[n];
    DistinctSplits(Flatten(front), last);
    if x in last {
      forall j | 0 <= j < n ensures x !in batches[j] {
        FlattenMembers(front, j);
      }
    } else {
      FlattenedOnce(front, x);
      var i :| 0 <= i < |front| && x in front[i] && forall j :: 0 <= j < |front| && j != i ==> x !in front[j];
      assert x in batches[i] && forall j :: 0 <= j < |batches| && j != i ==> x !in batches[j];
    }
  }

  /** With batches that fit in one query every topic is in exactly one batch. */
  lemma EveryTopicInOneBatch(t: Tables, batches: seq<seq<string>>, topic: string)
    requires Flatten(batches) == Visited(AllTopics(t), SUBSCRIBE_BATCH) && topic in t.topics
    ensures InOneBatch(batches, topic)
  {
    VisitsAllIff(AllTopics(t), SUBSCRIBE_BATCH);
    ListingDistinct(t.topics.Keys, Itself(), AllTopics(t));
    FlattenedOnce(batches, topic);
  }
}
