/** The devices at the other end: what each command type does to one, and in-order delivery. */
module Devices {
  import opened Wrappers
  import opened Pages
  import opened Crypto
  import opened Faults
  import opened Store
  import opened Model

  /** A device's own key, the C2 public key it trusts, its topic keys, and the commands it obeyed. */
  datatype Device = Device(key: Bytes, c2Public: Bytes, topicKeys: map<string, Bytes>, log: seq<Command>)

  function Obey(d: Device, cmd: Command): Device {
    var d' := d.(log := d.log + [cmd]);
    match cmd
    case SetTopicKey(topic, key) => d'.(topicKeys := d.topicKeys[topic := key])
    case RemoveTopic(topic) => d'.(topicKeys := d.topicKeys - {topic})
    case ResetTopics => d'.(topicKeys := map[])
    case SetIDKey(key) => d'.(key := key)
    case SetC2Key(key) => d'.(c2Public := key)
    case _ => d'
  }

  /** A payload the device cannot open is ignored. */
  function Receive(cfg: Config, d: Device, payload: Bytes): Device {
    match cfg.lib.OpenCommand(cfg.pubKeyMode, d.c2Public, d.key, payload)
    case None => d
    case Some(cmd) => Obey(d, cmd)
  }

  function Deliver(cfg: Config, ds: map<Bytes, Device>, sent: seq<Sent>): (r: map<Bytes, Device>)
    ensures r.Keys == ds.Keys
  {
    if sent == [] then ds
    else
      var before := Deliver(cfg, ds, sent[..|sent| - 1]);
      var last := sent[|sent| - 1];
      if last.to in before then before[last.to := Receive(cfg, before[last.to], last.payload)] else before
  }

  function Holds(d: Device, topic: string): Option<Bytes> {
    if topic in d.topicKeys then Some(d.topicKeys[topic]) else None
  }

  /** The device obeyed a ResetTopics and has got no key for the topic since. */
  function ResetSince(log: seq<Command>, topic: string): bool {
    if log == [] then false
    else
      var last := log[|log| - 1];
      if last.ResetTopics? then true
      else if last.SetTopicKey? && last.topic == topic then false
      else ResetSince(log[..|log| - 1], topic)
  }

  /** The i-th command the device obeyed was a ResetTopics, and no key for the topic came after it. */
  ghost predicate ResetAt(log: seq<Command>, topic: string, i: int) {
    && 0 <= i < |log| && log[i].ResetTopics?
    && forall j :: i < j < |log| ==> !(log[j].SetTopicKey? && log[j].topic == topic)
  }

  lemma {:induction false} ResetSinceIff(log: seq<Command>, topic: string)
    ensures ResetSince(log, topic) <==> exists i :: ResetAt(log, topic, i)
  {
    if log != [] {
      var n := |log| - 1;
      ResetSinceIff(log[..n], topic);
      if log[n].ResetTopics? {
        assert ResetAt(log, topic, n);
      } else if ResetSince(log, topic) {
        var i :| ResetAt(log[..n], topic, i);
        assert ResetAt(log, topic, i);
      } else if i :| ResetAt(log, topic, i) {
        assert ResetAt(log[..n], topic, i);
      }
    }
  }

  lemma ObeyEffect(d: Device, cmd: Command, topic: string)
    ensures Holds(Obey(d, cmd), topic)
         == if cmd == ResetTopics || cmd == RemoveTopic(topic) then None
            else if cmd.SetTopicKey? && cmd.topic == topic then Some(cmd.key)
            else Holds(d, topic)
    ensures ResetSince(Obey(d, cmd).log, topic)
         == if cmd == ResetTopics then true
            else if cmd.SetTopicKey? && cmd.topic == topic then false
            else ResetSince(d.log, topic)
  {
    assert Obey(d, cmd).log[..|d.log|] == d.log;
  }

  /** The stored half of a client's key pairs with its device's key, under the same C2 key. */
  ghost predicate Paired(cfg: Config, c2Secret: Bytes, d: Device, storedKey: Bytes) {
    && d.c2Public == cfg.lib.C2Public(c2Secret)
    && cfg.lib.decrypt(cfg.dbKey, storedKey) == Some(cfg.lib.StoredHalf(cfg.pubKeyMode, d.key))
    && cfg.lib.ValidKey(cfg.pubKeyMode, cfg.lib.StoredHalf(cfg.pubKeyMode, d.key))
  }

  /** A command to a paired client is published unless the broker fails, and the device obeys it. */
  lemma SendReaches(cfg: Config, w: World, cmd: Command, client: Client, f: Faults, ds: map<Bytes, Device>, from: nat)
    requires cfg.lib.Sound() && from <= |w.sent|
    requires var now := Deliver(cfg, ds, w.sent[from..]);
      client.id in now && Paired(cfg, w.c2Secret, now[client.id], client.key)
    ensures var r := Send(cfg, w, cmd, client, f);
      && r.Some? == !f(Publish(client.id))
      && (r.Some? ==>
           && |r.value.sent| == |w.sent| + 1
           && r.value.sent[..|w.sent|] == w.sent
           && var now := Deliver(cfg, ds, w.sent[from..]);
              Deliver(cfg, ds, r.value.sent[from..]) == now[client.id := Obey(now[client.id], cmd)])
  {
    hide Obey, Library.ProtectCommand, Library.OpenCommand;
    var now := Deliver(cfg, ds, w.sent[from..]);
    var d := now[client.id];
    cfg.lib.CommandRoundTrip(cfg.pubKeyMode, w.c2Secret, d.key, cmd);
    var r := Send(cfg, w, cmd, client, f);
    if r.Some? {
      var tail := r.value.sent[from..];
      assert tail[..|tail| - 1] == w.sent[from..];
      assert tail[|tail| - 1] == r.value.sent[|w.sent|];
    }
  }

  function Reached(clients: seq<Client>, f: Faults): set<Bytes> {
    set c | c in clients && !f(Publish(c.id)) :: c.id
  }

  ghost predicate DistinctIds(clients: seq<Client>) {
    forall i, j :: 0 <= i < j < |clients| ==> clients[i].id != clients[j].id
  }

  /** A fan-out to distinct paired clients makes exactly the reached devices obey, once each. */
  lemma {:induction false} FanOutReaches(cfg: Config, w: World, cmd: Command, clients: seq<Client>, f: Faults,
                                         ds: map<Bytes, Device>, from: nat)
    requires cfg.lib.Sound() && from <= |w.sent| && DistinctIds(clients)
    requires var now := Deliver(cfg, ds, w.sent[from..]);
      forall c :: c in clients ==> c.id in now && Paired(cfg, w.c2Secret, now[c.id], c.key)
    ensures var w' := SendAll(cfg, w, cmd, clients, f);
      && |w'.sent| >= |w.sent|
      && var now, after := Deliver(cfg, ds, w.sent[from..]), Deliver(cfg, ds, w'.sent[from..]);
         forall id :: id in ds ==> after[id] == if id in Reached(clients, f) then Obey(now[id], cmd) else now[id]
  {
    hide Obey, Send, Receive;
    if clients != [] {
      var n := |clients| - 1;
      var front, last := clients[..n], clients[n];
      FanOutReaches(cfg, w, cmd, front, f, ds, from);
      var mid := SendAll(cfg, w, cmd, front, f);
      assert last.id !in Reached(front, f);
      SendReaches(cfg, mid, cmd, last, f, ds, from);
      assert forall id :: id in Reached(clients, f) <==> id in Reached(front, f) || (id == last.id && !f(Publish(id)));
    }
  }

  /** The devices of `reached` obeyed the command once, the others did nothing. */
  ghost predicate Obeyed(ds: map<Bytes, Device>, ds': map<Bytes, Device>, reached: set<Bytes>, cmd: Command) {
    && ds'.Keys == ds.Keys
    && forall id :: id in ds ==> ds'[id] == if id in reached then Obey(ds[id], cmd) else ds[id]
  }

  lemma SendObeyed(cfg: Config, w: World, cmd: Command, client: Client, f: Faults, ds: map<Bytes, Device>)
    requires cfg.lib.Sound()
    requires client.id in ds && Paired(cfg, w.c2Secret, ds[client.id], client.key)
    ensures var r := Send(cfg, w, cmd, client, f);
      && r.Some? == !f(Publish(client.id))
      && (r.Some? ==>
           && |w.sent| <= |r.value.sent|
           && Obeyed(ds, Deliver(cfg, ds, r.value.sent[|w.sent|..]), {client.id}, cmd))
  {
    assert w.sent[|w.sent|..] == [];
    SendReaches(cfg, w, cmd, client, f, ds, |w.sent|);
  }

  lemma SendAllObeyed(cfg: Config, w: World, cmd: Command, clients: seq<Client>, f: Faults, ds: map<Bytes, Device>)
    requires cfg.lib.Sound() && DistinctIds(clients)
    requires forall c :: c in clients ==> c.id in ds && Paired(cfg, w.c2Secret, ds[c.id], c.key)
    ensures var w' := SendAll(cfg, w, cmd, clients, f);
      && |w.sent| <= |w'.sent|
      && Obeyed(ds, Deliver(cfg, ds, w'.sent[|w.sent|..]), Reached(clients, f), cmd)
  {
    assert w.sent[|w.sent|..] == [];
    FanOutReaches(cfg, w, cmd, clients, f, ds, |w.sent|);
  }

  ghost predicate AreRows(t: Tables, clients: seq<Client>) {
    forall c :: c in clients ==> c.id in t.clients && c == Row(t, c.id)
  }

  lemma RowsHaveDistinctIds(t: Tables, clients: seq<Client>)
    requires AreRows(t, clients) && Distinct(clients)
    ensures DistinctIds(clients)
  {
    forall i, j | 0 <= i < j < |clients| ensures clients[i].id != clients[j].id {
      assert clients[i] in clients && clients[j] in clients;
    }
  }

  /** A listing holds the rows of its IDs, each once; whatever is selected from it does too. */
  lemma ListingRows(t: Tables, ids: set<Bytes>)
    requires NamesUnique(t) && ids <= t.clients.Keys
    ensures var clients := Rows(t, Listing(t, ids));
      && AreRows(t, clients) && Distinct(clients)
      && forall id :: id in t.clients ==> (Row(t, id) in clients <==> id in ids)
  {
    var clients := Rows(t, Listing(t, ids));
    RowsDistinct(t, ids);
    forall id | id in t.clients ensures Row(t, id) in clients <==> id in ids {
      RowInRows(t, Listing(t, ids), id);
    }
  }

  lemma SelectedRows(t: Tables, clients: seq<Client>, keep: nat -> bool)
    requires AreRows(t, clients) && Distinct(clients)
    ensures AreRows(t, Select(clients, keep)) && DistinctIds(Select(clients, keep))
  {
    SelectMembers(clients, keep);
    SelectDistinct(clients, keep);
    RowsHaveDistinctIds(t, Select(clients, keep));
  }

  lemma ReachedRows(t: Tables, clients: seq<Client>, f: Faults)
    requires AreRows(t, clients)
    ensures forall id :: id in Reached(clients, f) <==> id in t.clients && Row(t, id) in clients && !f(Publish(id))
  {
  }

  lemma ListingReached(t: Tables, ids: set<Bytes>, f: Faults)
    requires NamesUnique(t) && ids <= t.clients.Keys && forall id :: !f(Publish(id))
    ensures var clients := Rows(t, Listing(t, ids));
      AreRows(t, clients) && DistinctIds(clients) && Reached(clients, f) == ids
  {
    var clients := Rows(t, Listing(t, ids));
    ListingRows(t, ids);
    RowsHaveDistinctIds(t, clients);
    ReachedRows(t, clients, f);
  }
}
