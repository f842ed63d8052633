/** The relational store: its tables as values, what each query and update does to them. */
module Store {
  import opened Wrappers
  import opened Pages
  import opened Order
  import opened Crypto
  import opened Faults

  const QUERY_LIMIT: nat := 100

  datatype Client = Client(id: Bytes, name: string, key: Bytes)
  datatype Topic = Topic(topic: string, key: Bytes)
  datatype DbError = NotFound | Failed

  datatype ClientRow = ClientRow(name: string, key: Bytes)

  /**
   * The tables, keyed by their unique indexes: `clients` by E4 ID, `topics` by topic name.
   * `links` joins clients to topics; `(c, p)` in `peers` puts client `p` in the list of client `c`.
   */
  datatype Tables = Tables(
    clients: map<Bytes, ClientRow>,
    topics: map<string, Bytes>,
    links: set<(Bytes, string)>,
    peers: set<(Bytes, Bytes)>)

  const EMPTY: Tables := Tables(map[], map[], {}, {})

  // ---- The store invariant

  /** The check InsertClient makes of a name and an ID. */
  predicate NameFits(lib: Library, name: string, id: Bytes) {
    if name != "" then id == lib.hashAlias(name) else |id| == lib.idLen
  }

  ghost predicate RowsNamed(lib: Library, t: Tables) {
    forall id :: id in t.clients ==> NameFits(lib, t.clients[id].name, id)
  }

  /** The unique index on the name column. */
  predicate NamesUnique(t: Tables) {
    forall a, b :: a in t.clients && b in t.clients && t.clients[a].name == t.clients[b].name ==> a == b
  }

  ghost predicate LinksLive(t: Tables) {
    && (forall id, topic :: (id, topic) in t.links ==> id in t.clients && topic in t.topics)
    && (forall c, p :: (c, p) in t.peers ==> c in t.clients && p in t.clients)
  }

  ghost predicate Consistent(lib: Library, t: Tables) {
    RowsNamed(lib, t) && NamesUnique(t) && LinksLive(t)
  }

  /** The name check and the unique IDs alone already make every non-empty name unique. */
  lemma NonEmptyNamesUnique(lib: Library, t: Tables, a: Bytes, b: Bytes)
    requires RowsNamed(lib, t) && a in t.clients && b in t.clients
    requires t.clients[a].name == t.clients[b].name != ""
    ensures a == b
  {
    assert NameFits(lib, t.clients[a].name, a) && NameFits(lib, t.clients[b].name, b);
  }

  // ---- Rows and listings

  function Row(t: Tables, id: Bytes): (c: Client)
    requires id in t.clients
    ensures c.id == id
  {
    Client(id, t.clients[id].name, t.clients[id].key)
  }

  function NameOf(clients: map<Bytes, ClientRow>): Bytes -> string {
    id => if id in clients then clients[id].name else ""
  }

  function Itself(): string -> string {
    s => s
  }

  /** The given clients, ordered by name. */
  function Listing(t: Tables, ids: set<Bytes>): (r: seq<Bytes>)
    requires NamesUnique(t) && ids <= t.clients.Keys
    ensures IsListing(ids, NameOf(t.clients), r)
  {
    SortBy(ids, NameOf(t.clients))
  }

  function Rows(t: Tables, ids: seq<Bytes>): (r: seq<Client>)
    requires forall id :: id in ids ==> id in t.clients
    ensures |r| == |ids| && forall i :: 0 <= i < |r| ==> r[i] == Row(t, ids[i])
  {
    seq(|ids|, i requires 0 <= i < |ids| => Row(t, ids[i]))
  }

  function ClientsOf(t: Tables, topic: string): set<Bytes> {
    set id | id in t.clients && (id, topic) in t.links
  }

  function TopicsOf(t: Tables, id: Bytes): set<string> {
    set topic | topic in t.topics && (id, topic) in t.links
  }

  function PeersOf(t: Tables, id: Bytes): set<Bytes> {
    set p | p in t.clients && (id, p) in t.peers
  }

  function AllClients(t: Tables): seq<Client>
    requires NamesUnique(t)
  {
    Rows(t, Listing(t, t.clients.Keys))
  }

  function AllTopics(t: Tables): (r: seq<string>)
    ensures IsListing(t.topics.Keys, Itself(), r)
  {
    SortBy(t.topics.Keys, Itself())
  }

  function TopicClients(t: Tables, topic: string): seq<Client>
    requires NamesUnique(t)
  {
    Rows(t, Listing(t, ClientsOf(t, topic)))
  }

  function ClientTopics(t: Tables, id: Bytes): (r: seq<string>)
    ensures IsListing(TopicsOf(t, id), Itself(), r)
  {
    SortBy(TopicsOf(t, id), Itself())
  }

  function LinkedClients(t: Tables, id: Bytes): seq<Client>
    requires NamesUnique(t)
  {
    Rows(t, Listing(t, PeersOf(t, id)))
  }

  /** The whole-table ranges clamp the count; the ranges over one topic or client do not. */
  function Clamped(count: nat): nat {
    Min(count, QUERY_LIMIT)
  }

  /** What the count of an association says. */
  function Counted(n: nat, lost: bool): nat {
    if lost then 0 else n
  }

  // ---- Updates

  /** Clients stay, under the name they were registered with. */
  ghost predicate NamesKept(t: Tables, t': Tables) {
    forall id :: id in t.clients ==> id in t'.clients && t'.clients[id].name == t.clients[id].name
  }

  function InsertClient(lib: Library, t: Tables, name: string, id: Bytes, key: Bytes, f: Faults)
    : (r: (Tables, Option<DbError>))
    ensures NamesUnique(t) ==> NamesUnique(r.0)
    ensures r.0 == t.(clients := r.0.clients) && NamesKept(t, r.0)
  {
    if !NameFits(lib, name, id) then (t, Some(Failed))
    else if id in t.clients then
      // a failed lookup takes the insert path, and the unique index refuses it
      if f(Lookup) || f(WriteRow) then (t, Some(Failed))
      else (t.(clients := t.clients[id := t.clients[id].(key := key)]), None)
    else if f(WriteRow) || NameTaken(t, name) then (t, Some(Failed))
    else (t.(clients := t.clients[id := ClientRow(name, key)]), None)
  }

  predicate NameTaken(t: Tables, name: string) {
    exists id :: id in t.clients && t.clients[id].name == name
  }

  function InsertTopicKey(t: Tables, topic: string, key: Bytes, f: Faults): (Tables, Option<DbError>) {
    if f(WriteRow) || (topic in t.topics && f(Lookup)) then (t, Some(Failed))
    else (t.(topics := t.topics[topic := key]), None)
  }

  function DeleteClient(t: Tables, id: Bytes, f: Faults): (Tables, Option<DbError>) {
    if f(Lookup) then (t, Some(Failed))
    else if id !in t.clients then (t, Some(NotFound))
    else if f(Clear) || f(DeleteRow) || f(Commit) then (t, Some(Failed))
    else (Tables(t.clients - {id}, t.topics,
                 set l | l in t.links && l.0 != id,
                 set p | p in t.peers && p.0 != id && p.1 != id), None)
  }

  function DeleteTopic(t: Tables, topic: string, f: Faults): (Tables, Option<DbError>) {
    if f(Lookup) then (t, Some(Failed))
    else if topic !in t.topics then (t, Some(NotFound))
    else if f(Clear) || f(DeleteRow) || f(Commit) then (t, Some(Failed))
    else (t.(topics := t.topics - {topic}, links := set l | l in t.links && l.1 != topic), None)
  }

  function LinkClientTopic(t: Tables, id: Bytes, topic: string, f: Faults): (Tables, Option<DbError>) {
    if id !in t.clients || topic !in t.topics || f(Join) || f(Commit) then (t, Some(Failed))
    else (t.(links := t.links + {(id, topic)}), None)
  }

  /** A failed re-read of the client alone is ignored, a failed re-read of the topic is not. */
  function UnlinkClientTopic(t: Tables, id: Bytes, topic: string, f: Faults): (Tables, Option<DbError>) {
    if f(Join) || id !in t.clients || topic !in t.topics || f(Recheck) || f(Commit) then (t, Some(Failed))
    else (t.(links := t.links - {(id, topic)}), None)
  }

  function LinkClient(t: Tables, source: Bytes, target: Bytes, f: Faults): (Tables, Option<DbError>) {
    if source !in t.clients || target !in t.clients || f(Join) then (t, Some(Failed))
    else (t.(peers := t.peers + {(target, source)}), None)
  }

  function UnlinkClient(t: Tables, source: Bytes, target: Bytes, f: Faults): (Tables, Option<DbError>) {
    if f(Join) then (t, Some(Failed)) else (t.(peers := t.peers - {(target, source)}), None)
  }

  // ---- The invariant is kept by every update

  lemma InsertsStayConsistent(lib: Library, t: Tables, name: string, id: Bytes, topic: string, key: Bytes, f: Faults)
    requires Consistent(lib, t)
    ensures Consistent(lib, InsertClient(lib, t, name, id, key, f).0)
    ensures Consistent(lib, InsertTopicKey(t, topic, key, f).0)
  {
    var r := InsertClient(lib, t, name, id, key, f).0;
    forall a, b | a in r.clients && b in r.clients && r.clients[a].name == r.clients[b].name ensures a == b {
      if a in t.clients && b in t.clients {
        assert t.clients[a].name == t.clients[b].name;
      }
    }
  }

  lemma DeletesStayConsistent(lib: Library, t: Tables, id: Bytes, topic: string, f: Faults)
    requires Consistent(lib, t)
    ensures Consistent(lib, DeleteClient(t, id, f).0)
    ensures Consistent(lib, DeleteTopic(t, topic, f).0)
  {
  }

  lemma JoinsStayConsistent(lib: Library, t: Tables, id: Bytes, other: Bytes, topic: string, f: Faults)
    requires Consistent(lib, t)
    ensures Consistent(lib, LinkClientTopic(t, id, topic, f).0)
    ensures Consistent(lib, UnlinkClientTopic(t, id, topic, f).0)
    ensures Consistent(lib, LinkClient(t, id, other, f).0)
    ensures Consistent(lib, UnlinkClient(t, id, other, f).0)
  {
  }

  /**
   * A well-formed new client is refused, when nothing fails, only if it has no name and there
   * already is a client without one: at most one client without a name can be registered.
   */
  lemma NewClientRefusedIff(lib: Library, t: Tables, name: string, id: Bytes, key: Bytes, f: Faults)
    requires RowsNamed(lib, t) && NameFits(lib, name, id) && id !in t.clients && !f(WriteRow)
    ensures InsertClient(lib, t, name, id, key, f).1.Some?
       <==> name == "" && exists other :: other in t.clients && t.clients[other].name == ""
  {
  }

  lemma NewKeyStaysConsistent(lib: Library, t: Tables, id: Bytes, key: Bytes)
    requires Consistent(lib, t) && id in t.clients
    ensures Consistent(lib, t.(clients := t.clients[id := t.clients[id].(key := key)]))
  {
    var r := t.(clients := t.clients[id := t.clients[id].(key := key)]);
    forall a, b | a in r.clients && b in r.clients && r.clients[a].name == r.clients[b].name ensures a == b {
      assert t.clients[a].name == t.clients[b].name;
    }
  }

  /** Storing a new key for a client just read back never fails the name check. */
  lemma RekeyPassesNameCheck(lib: Library, t: Tables, id: Bytes, key: Bytes, f: Faults)
    requires RowsNamed(lib, t) && id in t.clients
    ensures InsertClient(lib, t, Row(t, id).name, id, key, f)
         == if f(Lookup) || f(WriteRow) then (t, Some(Failed))
            else (t.(clients := t.clients[id := t.clients[id].(key := key)]), None)
  {
    assert NameFits(lib, t.clients[id].name, id);
  }

  // ---- Two views of one relation

  /** A client is in a topic's listing exactly when the topic is in the client's. */
  lemma TwoViews(lib: Library, t: Tables, id: Bytes, topic: string)
    requires Consistent(lib, t) && id in t.clients && topic in t.topics
    ensures Row(t, id) in TopicClients(t, topic) <==> topic in ClientTopics(t, id)
    ensures Row(t, id) in TopicClients(t, topic) <==> (id, topic) in t.links
    ensures |TopicClients(t, topic)| == |ClientsOf(t, topic)|
    ensures |ClientTopics(t, id)| == |TopicsOf(t, id)|
  {
    var ids := Listing(t, ClientsOf(t, topic));
    RowInRows(t, ids, id);
  }

  lemma RowInRows(t: Tables, ids: seq<Bytes>, id: Bytes)
    requires id in t.clients && forall i :: i in ids ==> i in t.clients
    ensures Row(t, id) in Rows(t, ids) <==> id in ids
  {
    var rows := Rows(t, ids);
    if id in ids {
      var i :| 0 <= i < |ids| && ids[i] == id;
      assert rows[i] == Row(t, id);
    }
    if Row(t, id) in rows {
      var i :| 0 <= i < |rows| && rows[i] == Row(t, id);
      assert ids[i] == id;
    }
  }

  // ---- What a page holds

  /** How many of the clients come before a name. */
  function NamedBefore(t: Tables, ids: set<Bytes>, name: string): nat {
    |Preceding(ids, NameOf(t.clients), name)|
  }

  /** How many of the topics come before a name. */
  function TopicsBefore(t: Tables, topic: string): nat {
    |Preceding(t.topics.Keys, Itself(), topic)|
  }

  lemma RowsPage(t: Tables, ids: seq<Bytes>, offset: nat, count: nat)
    requires forall id :: id in ids ==> id in t.clients
    ensures var page, idPage := Page(Rows(t, ids), offset, count), Page(ids, offset, count);
      |page| == |idPage| && forall i :: 0 <= i < |page| ==> page[i].id == idPage[i] && page[i] == Row(t, page[i].id)
  {
  }

  /** A page of a listing holds exactly the rows with the right number of names before theirs. */
  lemma RowsPageByRank(t: Tables, ids: set<Bytes>, offset: nat, count: nat, c: Client)
    requires NamesUnique(t) && ids <= t.clients.Keys
    ensures c in Page(Rows(t, Listing(t, ids)), offset, count) <==>
      c.id in ids && c == Row(t, c.id) && offset <= NamedBefore(t, ids, c.name) < offset + count
  {
    hide Preceding, Before, Page, Rows, Listing;
    var listing := Listing(t, ids);
    RowsPage(t, listing, offset, count);
    PageByRank(ids, NameOf(t.clients), listing, offset, count, c.id);
    var page, idPage := Page(Rows(t, listing), offset, count), Page(listing, offset, count);
    if c.id in idPage && c.id in t.clients && c == Row(t, c.id) {
      var i :| 0 <= i < |idPage| && idPage[i] == c.id;
      assert page[i] == c;
    }
  }

  /** And they are in name order. */
  lemma RowsPageInOrder(t: Tables, ids: set<Bytes>, offset: nat, count: nat)
    requires NamesUnique(t) && ids <= t.clients.Keys
    ensures var page := Page(Rows(t, Listing(t, ids)), offset, count);
      forall i, j :: 0 <= i < j < |page| ==> Before(page[i].name, page[j].name)
  {
    hide Before;
    RowsPage(t, Listing(t, ids), offset, count);
  }

  /** What GetClientsRange gives: at most 100 rows whatever the count. */
  lemma ClientsPage(t: Tables, offset: nat, count: nat, c: Client)
    requires NamesUnique(t)
    ensures c in Page(AllClients(t), offset, Clamped(count)) <==>
      && c.id in t.clients && c == Row(t, c.id)
      && offset <= NamedBefore(t, t.clients.Keys, c.name) < offset + Min(count, 100)
  {
    RowsPageByRank(t, t.clients.Keys, offset, Clamped(count), c);
  }

  /** What GetTopicsRange gives: at most 100 topics whatever the count. */
  lemma TopicsPage(t: Tables, offset: nat, count: nat, topic: string)
    ensures topic in Page(AllTopics(t), offset, Clamped(count)) <==>
      topic in t.topics && offset <= TopicsBefore(t, topic) < offset + Min(count, 100)
  {
    hide Preceding, Before, Page, SortBy, IsListing;
    PageByRank(t.topics.Keys, Itself(), AllTopics(t), offset, Clamped(count), topic);
  }

  /** What GetClientsForTopic gives: linked clients only, and as many as were asked for. */
  lemma TopicClientsPage(t: Tables, topic: string, offset: nat, count: nat, c: Client)
    requires NamesUnique(t)
    ensures c in Page(TopicClients(t, topic), offset, count) <==>
      && c.id in t.clients && c == Row(t, c.id) && (c.id, topic) in t.links
      && offset <= NamedBefore(t, ClientsOf(t, topic), c.name) < offset + count
  {
    RowsPageByRank(t, ClientsOf(t, topic), offset, count, c);
  }

  /** Two consecutive pages are one page: no row is lost or repeated where they meet. */
  lemma PagesJoin<T>(s: seq<T>, offset: nat, a: nat, b: nat)
    ensures Page(s, offset, a) + Page(s, offset + a, b) == Page(s, offset, a + b)
  {
  }

  /** Reading a listing in pages of any size gives the listing. */
  function ReadFrom<T>(s: seq<T>, offset: nat, size: nat): seq<T>
    requires size > 0
    decreases |s| - offset
  {
    if offset >= |s| then [] else Page(s, offset, size) + ReadFrom(s, offset + size, size)
  }

  lemma {:induction false} ReadFromIsRest<T>(s: seq<T>, offset: nat, size: nat)
    requires size > 0
    ensures ReadFrom(s, offset, size) == if offset < |s| then s[offset..] else []
    decreases |s| - offset
  {
    if offset < |s| {
      ReadFromIsRest(s, offset + size, size);
    }
  }

  /** The rows of a listing are distinct, whatever their keys. */
  lemma RowsDistinct(t: Tables, ids: set<Bytes>)
    requires NamesUnique(t) && ids <= t.clients.Keys
    ensures Distinct(Rows(t, Listing(t, ids)))
  {
    ListingDistinct(ids, NameOf(t.clients), Listing(t, ids));
  }
}
