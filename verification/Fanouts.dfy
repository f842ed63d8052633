/** Which clients a fan-out of internal/services/e4.go comes to, and what it publishes to them. */
module Fanouts {
  import opened Wrappers
  import opened Pages
  import opened Crypto
  import opened Faults
  import opened Store
  import opened Model
  import Devices

  // ---- The messages of a fan-out

  /** What one command to one client adds to the published messages. */
  function Packet(cfg: Config, c2Secret: Bytes, cmd: Command, client: Client, f: Faults): seq<Sent> {
    var stored := cfg.lib.decrypt(cfg.dbKey, client.key);
    if stored.None? then []
    else
      var payload := cfg.lib.ProtectCommand(cfg.pubKeyMode, c2Secret, stored.value, cmd);
      if payload.None? || f(Publish(client.id)) then [] else [Sent(client.id, payload.value)]
  }

  lemma SendAllSnoc(cfg: Config, w: World, cmd: Command, clients: seq<Client>, last: Client, f: Faults)
    ensures SendAll(cfg, w, cmd, clients + [last], f).sent
         == SendAll(cfg, w, cmd, clients, f).sent + Packet(cfg, w.c2Secret, cmd, last, f)
  {
    assert (clients + [last])[..|clients|] == clients;
  }

  /** Every message from `from` on is the command, protected for its client under the given C2 key. */
  ghost predicate SealedUnder(cfg: Config, t: Tables, c2Secret: Bytes, cmd: Command, sent: seq<Sent>, from: nat) {
    forall i :: from <= i < |sent| ==>
      && sent[i].to in t.clients
      && var stored := cfg.lib.decrypt(cfg.dbKey, t.clients[sent[i].to].key);
         stored.Some? && cfg.lib.ProtectCommand(cfg.pubKeyMode, c2Secret, stored.value, cmd) == Some(sent[i].payload)
  }

  lemma {:induction false} SendAllSealed(cfg: Config, w: World, cmd: Command, clients: seq<Client>, f: Faults)
    requires forall c :: c in clients ==> c.id in w.tables.clients && c == Row(w.tables, c.id)
    ensures SealedUnder(cfg, w.tables, w.c2Secret, cmd, SendAll(cfg, w, cmd, clients, f).sent, |w.sent|)
  {
    if clients != [] {
      SendAllSealed(cfg, w, cmd, clients[..|clients| - 1], f);
      assert clients[|clients| - 1] in clients;
    }
  }

  function Recipients(sent: seq<Sent>): (r: seq<Bytes>)
    ensures |r| == |sent|
  {
    seq(|sent|, i requires 0 <= i < |sent| => sent[i].to)
  }

  function Ids(clients: seq<Client>): (r: seq<Bytes>)
    ensures |r| == |clients|
  {
    seq(|clients|, i requires 0 <= i < |clients| => clients[i].id)
  }

  /** The client's key can be used and the broker takes the message. */
  predicate CanReach(cfg: Config, c2Secret: Bytes, cmd: Command, client: Client, f: Faults) {
    Packet(cfg, c2Secret, cmd, client, f) != []
  }

  function Reachable(cfg: Config, c2Secret: Bytes, cmd: Command, clients: seq<Client>, f: Faults): nat -> bool {
    (i: nat) => i < |clients| && CanReach(cfg, c2Secret, cmd, clients[i], f)
  }

  /** The clients of a fan-out that get their message, in order. */
  function Served(cfg: Config, c2Secret: Bytes, cmd: Command, clients: seq<Client>, f: Faults): seq<Client> {
    Select(clients, Reachable(cfg, c2Secret, cmd, clients, f))
  }

  lemma ServedSnoc(cfg: Config, c2Secret: Bytes, cmd: Command, clients: seq<Client>, f: Faults)
    requires clients != []
    ensures var front, last := clients[..|clients| - 1], clients[|clients| - 1];
      Served(cfg, c2Secret, cmd, clients, f)
      == Served(cfg, c2Secret, cmd, front, f) + if CanReach(cfg, c2Secret, cmd, last, f) then [last] else []
  {
    var front := clients[..|clients| - 1];
    SelectCong(front, Reachable(cfg, c2Secret, cmd, clients, f), Reachable(cfg, c2Secret, cmd, front, f));
  }

  lemma OneMoreServed(a: seq<Sent>, more: seq<Sent>, served: seq<Client>, last: Client)
    requires Recipients(a) == Ids(served) && |more| <= 1 && (more != [] ==> more[0].to == last.id)
    ensures Recipients(a + more) == Ids(served + if more != [] then [last] else [])
  {
    var now := served + if more != [] then [last] else [];
    forall i | 0 <= i < |a + more| ensures (a + more)[i].to == now[i].id {
      assert i < |a| ==> Recipients(a)[i] == Ids(served)[i];
    }
  }

  /** A client that cannot be reached costs the others nothing: everyone else gets one message, in order. */
  lemma {:induction false} SendAllServes(cfg: Config, w: World, cmd: Command, clients: seq<Client>, f: Faults)
    ensures var sent := SendAll(cfg, w, cmd, clients, f).sent;
      w.sent <= sent && Recipients(sent[|w.sent|..]) == Ids(Served(cfg, w.c2Secret, cmd, clients, f))
  {
    if clients != [] {
      var front, last := clients[..|clients| - 1], clients[|clients| - 1];
      SendAllServes(cfg, w, cmd, front, f);
      ServedSnoc(cfg, w.c2Secret, cmd, clients, f);
      SendAllSnoc(cfg, w, cmd, front, last, f);
      assert clients == front + [last];
      var before, more := SendAll(cfg, w, cmd, front, f).sent, Packet(cfg, w.c2Secret, cmd, last, f);
      assert (before + more)[|w.sent|..] == before[|w.sent|..] + more;
      OneMoreServed(before[|w.sent|..], more, Served(cfg, w.c2Secret, cmd, front, f), last);
    }
  }

  // ---- The clients of a fan-out

  /** What a page adds to the clients a fan-out comes to. */
  lemma PageSelected<T>(all: seq<T>, offset: nat, batch: nat, f: Faults)
    requires batch > 0 && Aligned(offset, batch) && offset < |all|
    ensures var keep, next := Readable(f, batch), Min(offset + batch, |all|);
      Select(all[..next], keep)
      == Select(all[..offset], keep) + if f(ReadPage(offset)) then [] else Page(all, offset, batch)
  {
    var keep, next := Readable(f, batch), Min(offset + batch, |all|);
    forall i: nat | offset <= i < next ensures keep(i) == !f(ReadPage(offset)) {
      PageStartOf(i, offset, batch);
    }
    if f(ReadPage(offset)) {
      SelectDropped(all, offset, next, keep);
    } else {
      SelectKept(all, offset, next, keep);
      assert Page(all, offset, batch) == all[offset..next];
    }
  }

  /** Where the offset loop of a fan-out begins, and what it came to when it ends. */
  lemma FanOutEnds(all: seq<Client>, offset: nat, batch: nat, f: Faults)
    requires batch > 0
    ensures Aligned(0, batch) && all[..Min(0, |all|)] == [] && Select(all[..Min(0, |all|)], Readable(f, batch)) == []
    ensures offset >= |all| && !f(CountLost) ==>
      Select(all[..Min(offset, |all|)], Readable(f, batch)) == FanOut(all, batch, f)
    ensures f(CountLost) ==> FanOut(all, batch, f) == [] && Counted(|all|, f(CountLost)) == 0
    ensures !f(CountLost) ==> Counted(|all|, f(CountLost)) == |all|
  {
    assert offset >= |all| ==> all[..Min(offset, |all|)] == all;
  }

  /**
   * A paged fan-out over a listing comes to each client on a readable page once, and to no other; with
   * no unreadable page that is the whole listing in order, whatever its length and the batch size. It
   * comes to nobody when the count was lost.
   */
  lemma FanOutIsExact(all: seq<Client>, batch: nat, f: Faults)
    requires batch > 0 && Distinct(all)
    ensures Distinct(FanOut(all, batch, f))
    ensures forall c :: c in FanOut(all, batch, f) ==> c in all
    ensures forall i: nat :: i < |all| ==>
      (all[i] in FanOut(all, batch, f) <==> !f(CountLost) && !f(ReadPage(PageStart(i, batch))))
    ensures !f(CountLost) && (forall o :: !f(ReadPage(o))) ==> FanOut(all, batch, f) == all
  {
    SelectDistinct(all, Readable(f, batch));
    SelectMembers(all, Readable(f, batch));
    if forall o :: !f(ReadPage(o)) {
      forall i: nat | i < |all| ensures Readable(f, batch)(i) {
        assert !f(ReadPage(PageStart(i, batch)));
      }
      SelectAll(all, Readable(f, batch));
    }
  }

  /** NewC2Key comes to the first clients in name order, at most as many as one query gives, if its batch is larger. */
  lemma C2TargetsAreAPrefix(t: Tables, batch: nat)
    requires NamesUnique(t)
    ensures var all, targets := AllClients(t), C2Targets(AllClients(t), batch);
      && |all| == |t.clients|
      && targets == all[..|targets|] && Distinct(targets)
      && |targets| == if batch <= QUERY_LIMIT then |all| else Min(|all|, QUERY_LIMIT)
  {
    Devices.ListingRows(t, t.clients.Keys);
  }

  // ---- NewTopic and NewClientKey

  /** What a call published. */
  function Published(w: World, w': World): seq<Sent>
    requires w.sent <= w'.sent
  {
    w'.sent[|w.sent|..]
  }

  lemma TopicClientsAreRows(t: Tables, topic: string)
    requires NamesUnique(t)
    ensures Distinct(TopicClients(t, topic))
    ensures forall c :: c in TopicClients(t, topic) ==> c.id in t.clients && c == Row(t, c.id)
    ensures forall id :: id in t.clients ==> (Row(t, id) in TopicClients(t, topic) <==> (id, topic) in t.links)
  {
    Devices.ListingRows(t, ClientsOf(t, topic));
  }

  /**
   * All or nothing: a failure up to and including the commit leaves the server's state as it was;
   * past the commit the stored row decrypts to the key, and everything published is that key, sealed
   * for its recipient, to the linked clients on readable pages that can be reached, once each.
   */
  lemma NewTopicIsAllOrNothing(cfg: Config, w: World, topic: string, key: Bytes, f: Faults)
    requires cfg.Usable() && Consistent(cfg.lib, w.tables) && cfg.lib.DecryptsOwn()
    ensures var r := NewTopic(cfg, w, topic, key, f);
      if CommitTopic(cfg, w.tables, topic, key, f).Err? then r.0 == w && r.1 != Done
      else
        var t := r.0.tables;
        var cmd, targets := SetTopicKey(topic, key), TopicTargets(cfg, t, topic, f);
        && topic in t.topics && cfg.lib.decrypt(cfg.dbKey, t.topics[topic]) == Some(key)
        && Recipients(Published(w, r.0)) == Ids(Served(cfg, w.c2Secret, cmd, targets, f))
        && SealedUnder(cfg, t, w.c2Secret, cmd, r.0.sent, |w.sent|)
        && (r.1 == Done <==> !f(Subscribe))
  {
    var committed := CommitTopic(cfg, w.tables, topic, key, f);
    if committed.Ok? {
      var t := committed.value;
      var cmd, targets := SetTopicKey(topic, key), TopicTargets(cfg, t, topic, f);
      TopicClientsAreRows(t, topic);
      SelectMembers(TopicClients(t, topic), Readable(f, cfg.topicBatch));
      SendAllServes(cfg, w.(tables := t), cmd, targets, f);
      SendAllSealed(cfg, w.(tables := t), cmd, targets, f);
    }
  }

  /**
   * What an error says: the new key is in force although the call reported an error exactly when
   * everything up to the commit went well and then the broker did not take the subscription.
   */
  lemma NewTopicErrorTookEffectIff(cfg: Config, w: World, topic: string, key: Bytes, f: Faults)
    requires cfg.Usable() && Consistent(cfg.lib, w.tables) && cfg.lib.DecryptsOwn()
    requires topic in w.tables.topics ==> cfg.lib.decrypt(cfg.dbKey, w.tables.topics[topic]) != Some(key)
    ensures var r := NewTopic(cfg, w, topic, key, f);
      var inForce := topic in r.0.tables.topics && cfg.lib.decrypt(cfg.dbKey, r.0.tables.topics[topic]) == Some(key);
      && (r.1 == Done ==> inForce)
      && (r.1 != Done && inForce <==>
            && f(Subscribe) && cfg.validTopic(topic)
            && !f(Encrypt) && !f(BeginTx) && !f(WriteRow) && (topic in w.tables.topics ==> !f(Lookup))
            && !f(Build) && !f(CountRows) && !f(CommitTx))
  {
    NewTopicIsAllOrNothing(cfg, w, topic, key, f);
  }

  /** The command, protected under the C2 key in memory for the key the client has in the store. */
  predicate SealedFor(cfg: Config, w: World, cmd: Command, id: Bytes, message: Sent)
    requires id in w.tables.clients
  {
    && message.to == id
    && var stored := cfg.lib.decrypt(cfg.dbKey, w.tables.clients[id].key);
       stored.Some? && cfg.lib.ProtectCommand(cfg.pubKeyMode, w.c2Secret, stored.value, cmd) == Some(message.payload)
  }

  /** A NewClientKey that is done, in two parts: the client's own message, and the fan-out after it. */
  lemma NewClientKeyDone(cfg: Config, w: World, id: Bytes, key: Bytes, f: Faults) returns (mid: World)
    requires cfg.Usable() && Consistent(cfg.lib, w.tables) && NewClientKey(cfg, w, id, key, f).1 == Done
    ensures id in w.tables.clients && NamesUnique(mid.tables) && mid.c2Secret == w.c2Secret
    ensures |mid.sent| == |w.sent| + 1 && w.sent <= mid.sent && SealedFor(cfg, w, SetIDKey(key), id, mid.sent[|w.sent|])
    ensures var cmd := SetPubKey(cfg.lib.StoredHalf(cfg.pubKeyMode, key), w.tables.clients[id].name);
      NewClientKey(cfg, w, id, key, f).0 ==
        if cfg.sendPubKey && cfg.pubKeyMode
        then SendAll(cfg, mid, cmd, FanOut(LinkedClients(mid.tables, id), cfg.linkedBatch, f), f)
        else mid
  {
    hide SendAll, FanOut;
    var row := cfg.lib.encrypt(cfg.dbKey, cfg.lib.StoredHalf(cfg.pubKeyMode, key));
    mid := Send(cfg, w, SetIDKey(key), Row(w.tables, id), f).value
             .(tables := InsertClient(cfg.lib, w.tables, w.tables.clients[id].name, id, row, f).0);
  }

  lemma LinkedTargetsAreRows(t: Tables, id: Bytes, batch: nat, f: Faults)
    requires NamesUnique(t) && batch > 0
    ensures forall c :: c in FanOut(LinkedClients(t, id), batch, f) ==> c.id in t.clients && c == Row(t, c.id)
  {
    Devices.ListingRows(t, PeersOf(t, id));
    FanOutIsExact(LinkedClients(t, id), batch, f);
  }

  lemma FirstRecipient(before: seq<Sent>, mid: seq<Sent>, sent: seq<Sent>)
    requires |mid| == |before| + 1 && before <= mid && mid <= sent
    ensures Recipients(sent[|before|..]) == [mid[|before|].to] + Recipients(sent[|mid|..])
  {
  }

  /**
   * NewClientKey that is done sent its client one message, the new key protected for the old one, and
   * then, if it is configured to, the new public key to the linked clients on readable pages that can be
   * reached, once each and in order, protected for each under the C2 key.
   */
  lemma NewClientKeyServes(cfg: Config, w: World, id: Bytes, key: Bytes, f: Faults)
    requires cfg.Usable() && Consistent(cfg.lib, w.tables) && NewClientKey(cfg, w, id, key, f).1 == Done
    ensures var w' := NewClientKey(cfg, w, id, key, f).0;
      && id in w.tables.clients && NamesUnique(w'.tables)
      && var cmd := SetPubKey(cfg.lib.StoredHalf(cfg.pubKeyMode, key), w.tables.clients[id].name);
         var targets := FanOut(LinkedClients(w'.tables, id), cfg.linkedBatch, f);
         && Recipients(Published(w, w')) ==
              [id] + (if cfg.sendPubKey && cfg.pubKeyMode then Ids(Served(cfg, w.c2Secret, cmd, targets, f)) else [])
         && |w'.sent| > |w.sent|
         && SealedFor(cfg, w, SetIDKey(key), id, w'.sent[|w.sent|])
         && SealedUnder(cfg, w'.tables, w.c2Secret, cmd, w'.sent, |w.sent| + 1)
  {
    hide NewClientKey, SendAll, FanOut, LinkedClients, Served;
    var mid := NewClientKeyDone(cfg, w, id, key, f);
    var w' := NewClientKey(cfg, w, id, key, f).0;
    var cmd := SetPubKey(cfg.lib.StoredHalf(cfg.pubKeyMode, key), w.tables.clients[id].name);
    if cfg.sendPubKey && cfg.pubKeyMode {
      var targets := FanOut(LinkedClients(mid.tables, id), cfg.linkedBatch, f);
      SendAllServes(cfg, mid, cmd, targets, f);
      LinkedTargetsAreRows(mid.tables, id, cfg.linkedBatch, f);
      SendAllSealed(cfg, mid, cmd, targets, f);
    }
    FirstRecipient(w.sent, mid.sent, w'.sent);
  }
}
