/**
 * Devices and store agree. The system is the server's state, the devices that received, in order,
 * everything it published, and the topic keys it ever drew.
 */
module Agreement {
  import opened Wrappers
  import opened Pages
  import opened Crypto
  import opened Faults
  import opened Store
  import opened Model
  import opened Devices

  datatype System = System(world: World, devices: map<Bytes, Device>, drawn: set<Bytes>)

  /** One call, its faults, and the key put into a device when the call registers a client. */
  datatype Input = Input(call: Call, faults: Faults, secret: Bytes)

  // ---- The system's steps

  /** Registering a new client goes with putting its key and the C2 public key into an empty device. */
  function Provision(cfg: Config, s: System, input: Input): map<Bytes, Device> {
    match input.call
    case CallNewClient(name, id, key) =>
      var chosen := ValidateE4NameOrIDPair(cfg.lib, name, id);
      if chosen.Some? then
        s.devices[chosen.value := Device(input.secret, cfg.lib.C2Public(s.world.c2Secret), map[], [])]
      else s.devices
    case _ => s.devices
  }

  function Drawn(call: Call): set<Bytes> {
    if call.CallNewTopic? then {call.key} else {}
  }

  function Advance(cfg: Config, s: System, input: Input): System
    requires cfg.Usable() && NamesUnique(s.world.tables)
  {
    var w := Perform(cfg, s.world, input.call, input.faults).0;
    System(w, Deliver(cfg, Provision(cfg, s, input), w.sent[|s.world.sent|..]), s.drawn + Drawn(input.call))
  }

  /** What the environment owes: unregistered IDs for new clients, fresh topic keys, valid client keys. */
  predicate Admissible(cfg: Config, s: System, input: Input) {
    match input.call
    case CallNewClient(name, id, key) =>
      var chosen := ValidateE4NameOrIDPair(cfg.lib, name, id);
      chosen.Some? ==>
        chosen.value !in s.world.tables.clients && key == cfg.lib.StoredHalf(cfg.pubKeyMode, input.secret)
    case CallNewTopic(_, key) => key !in s.drawn
    case CallNewClientKey(_, key) => cfg.lib.ValidKey(cfg.pubKeyMode, cfg.lib.StoredHalf(cfg.pubKeyMode, key))
    case _ => true
  }

  /** NewC2Key's paging comes to every client. */
  predicate ReachesAll(cfg: Config, t: Tables) {
    cfg.c2Batch <= QUERY_LIMIT || |t.clients| <= QUERY_LIMIT
  }

  /**
   * Nothing fails once the call has published: only such faults can part devices from the store.
   * Every fault before the first publish is allowed, and so is every refusal.
   */
  ghost predicate Calm(cfg: Config, s: System, input: Input) {
    var f := input.faults;
    match input.call
    case CallNewTopicClient(_, _) => !f(Join) && !f(Commit)
    case CallRemoveTopicClient(_, _) => !f(Join) && !f(Recheck) && !f(Commit)
    case CallNewTopic(_, _) =>
      !f(CommandType) && !f(CountLost) && (forall o :: !f(ReadPage(o))) && (forall id :: !f(Publish(id)))
    case CallNewClientKey(_, _) => !f(Encrypt) && !f(Lookup) && !f(WriteRow)
    case CallNewC2Key(_, backed, committed) =>
      cfg.pubKeyMode && backed && !f(Build) ==>
        committed && (forall id :: !f(Publish(id))) && ReachesAll(cfg, s.world.tables)
    case _ => true
  }

  // ---- Agreement

  function TopicKey(cfg: Config, t: Tables, topic: string): Option<Bytes>
    requires topic in t.topics
  {
    cfg.lib.decrypt(cfg.dbKey, t.topics[topic])
  }

  ghost predicate ClientAgrees(cfg: Config, s: System, id: Bytes)
    requires id in s.world.tables.clients
  {
    id in s.devices && Paired(cfg, s.world.c2Secret, s.devices[id], s.world.tables.clients[id].key)
  }

  ghost predicate ClientsAgree(cfg: Config, s: System) {
    forall id :: id in s.world.tables.clients ==> ClientAgrees(cfg, s, id)
  }

  ghost predicate KeysKnown(cfg: Config, s: System) {
    && (forall topic :: topic in s.world.tables.topics ==>
          TopicKey(cfg, s.world.tables, topic).Some? && TopicKey(cfg, s.world.tables, topic).value in s.drawn)
    && (forall id, topic :: id in s.world.tables.clients && id in s.devices && topic in s.devices[id].topicKeys ==>
          s.devices[id].topicKeys[topic] in s.drawn)
  }

  /**
   * A linked client holds the topic's current key, unless its device obeyed a ResetTopics with no key
   * for the topic after it, and then it holds none; an unlinked client does not hold the current key.
   */
  predicate KeyAgrees(d: Device, topic: string, linked: bool, current: Option<Bytes>) {
    if linked then Holds(d, topic) == if ResetSince(d.log, topic) then None else current
    else Holds(d, topic).None? || Holds(d, topic) != current
  }

  ghost predicate LinksAgree(cfg: Config, s: System) {
    var t := s.world.tables;
    forall id, topic :: id in t.clients && topic in t.topics && id in s.devices ==>
      KeyAgrees(s.devices[id], topic, (id, topic) in t.links, TopicKey(cfg, t, topic))
  }

  ghost predicate Agree(cfg: Config, s: System) {
    && Consistent(cfg.lib, s.world.tables)
    && ClientsAgree(cfg, s)
    && KeysKnown(cfg, s)
    && LinksAgree(cfg, s)
  }

  // ---- Calls that change the tables only

  /** The tables lose rows, topics or links of what they lost, and nothing else about the rest. */
  ghost predicate Shrinks(t: Tables, t': Tables) {
    && (forall id :: id in t'.clients ==> id in t.clients && t'.clients[id] == t.clients[id])
    && (forall topic :: topic in t'.topics ==> topic in t.topics && t'.topics[topic] == t.topics[topic])
    && (forall id, topic :: id in t'.clients && topic in t'.topics ==>
          ((id, topic) in t'.links <==> (id, topic) in t.links))
  }

  lemma RemovalsShrink(t: Tables, source: Bytes, target: Bytes, topic: string, f: Faults)
    ensures Shrinks(t, DeleteClient(t, source, f).0)
    ensures Shrinks(t, DeleteTopic(t, topic, f).0)
    ensures Shrinks(t, Store.LinkClient(t, source, target, f).0)
    ensures Shrinks(t, Store.UnlinkClient(t, source, target, f).0)
  {
  }

  lemma ShrunkAgrees(cfg: Config, s: System, s': System)
    requires Agree(cfg, s) && Consistent(cfg.lib, s'.world.tables)
    requires Shrinks(s.world.tables, s'.world.tables)
    requires s'.devices == s.devices && s'.drawn == s.drawn && s'.world.c2Secret == s.world.c2Secret
    ensures Agree(cfg, s')
  {
    var t, t' := s.world.tables, s'.world.tables;
    forall id | id in t'.clients ensures ClientAgrees(cfg, s', id) {
      assert ClientAgrees(cfg, s, id);
    }
    forall topic | topic in t'.topics ensures TopicKey(cfg, t', topic) == TopicKey(cfg, t, topic) {
    }
  }

  predicate OnlyTables(call: Call) {
    call.CallRemoveClient? || call.CallRemoveTopic? || call.CallLinkClient? || call.CallUnlinkClient?
  }

  lemma RemovalFacts(cfg: Config, w: World, call: Call, f: Faults)
    requires cfg.Usable() && NamesUnique(w.tables) && OnlyTables(call)
    ensures var w' := Perform(cfg, w, call, f).0;
      Shrinks(w.tables, w'.tables) && w'.sent == w.sent && w'.c2Secret == w.c2Secret
  {
    match call
    case CallRemoveClient(id) => RemovalsShrink(w.tables, id, id, "", f);
    case CallRemoveTopic(topic) => RemovalsShrink(w.tables, [], [], topic, f);
    case CallLinkClient(source, target) => RemovalsShrink(w.tables, source, target, "", f);
    case CallUnlinkClient(source, target) => RemovalsShrink(w.tables, source, target, "", f);
    case _ =>
  }

  lemma RemovalsAgree(cfg: Config, s: System, input: Input)
    requires cfg.Usable() && Agree(cfg, s) && OnlyTables(input.call)
    ensures Agree(cfg, Advance(cfg, s, input))
  {
    CallKeepsStore(cfg, s.world, input.call, input.faults);
    RemovalFacts(cfg, s.world, input.call, input.faults);
    ShrunkAgrees(cfg, s, Advance(cfg, s, input));
  }

  /** A client is added, its device is empty and paired with its row. */
  lemma GrownAgrees(cfg: Config, s: System, s': System, id: Bytes, name: string, key: Bytes)
    requires Agree(cfg, s) && id !in s.world.tables.clients && Consistent(cfg.lib, s'.world.tables)
    requires s'.world.tables == s.world.tables.(clients := s.world.tables.clients[id := ClientRow(name, key)])
    requires s'.world.c2Secret == s.world.c2Secret && s'.drawn == s.drawn
    requires id in s'.devices && s'.devices == s.devices[id := s'.devices[id]]
    requires s'.devices[id].topicKeys == map[] && Paired(cfg, s'.world.c2Secret, s'.devices[id], key)
    ensures Agree(cfg, s')
  {
    var t, t' := s.world.tables, s'.world.tables;
    forall other | other in t'.clients ensures ClientAgrees(cfg, s', other) {
      if other != id { assert ClientAgrees(cfg, s, other); }
    }
    forall topic | topic in t'.topics ensures TopicKey(cfg, t', topic) == TopicKey(cfg, t, topic) {
    }
    assert forall topic :: (id, topic) !in t.links;
  }

  /** The device of an ID that is not registered may be anything. */
  lemma UnregisteredDeviceAgrees(cfg: Config, s: System, s': System, id: Bytes)
    requires Agree(cfg, s) && id !in s.world.tables.clients && s'.world == s.world && s'.drawn == s.drawn
    requires id in s'.devices && s'.devices == s.devices[id := s'.devices[id]]
    ensures Agree(cfg, s')
  {
    forall other | other in s'.world.tables.clients ensures ClientAgrees(cfg, s', other) {
      assert ClientAgrees(cfg, s, other);
    }
  }

  lemma NewClientAgrees(cfg: Config, s: System, name: string, id: Bytes, key: Bytes, f: Faults, secret: Bytes)
    requires cfg.Usable() && cfg.lib.Sound() && Agree(cfg, s)
    requires Admissible(cfg, s, Input(CallNewClient(name, id, key), f, secret))
    ensures Agree(cfg, Advance(cfg, s, Input(CallNewClient(name, id, key), f, secret)))
  {
    var input := Input(CallNewClient(name, id, key), f, secret);
    CallKeepsStore(cfg, s.world, input.call, f);
    var s' := Advance(cfg, s, input);
    assert s'.devices == Provision(cfg, s, input);
    var chosen := ValidateE4NameOrIDPair(cfg.lib, name, id);
    if chosen.Some? {
      if s'.world.tables == s.world.tables {
        UnregisteredDeviceAgrees(cfg, s, s', chosen.value);
      } else {
        var row := cfg.lib.encrypt(cfg.dbKey, key);
        assert cfg.lib.decrypt(cfg.dbKey, row) == Some(key);
        GrownAgrees(cfg, s, s', chosen.value, name, row);
      }
    }
  }

  // ---- Calls that send

  predicate Harmless(cmd: Command) {
    cmd.ResetTopics? || cmd.SetPubKey? || cmd.RemovePubKey? || cmd.ResetPubKeys?
  }

  lemma HarmlessAgrees(cfg: Config, s: System, s': System, reached: set<Bytes>, cmd: Command)
    requires Agree(cfg, s) && Harmless(cmd)
    requires s'.world.tables == s.world.tables && s'.world.c2Secret == s.world.c2Secret && s'.drawn == s.drawn
    requires Obeyed(s.devices, s'.devices, reached, cmd)
    ensures Agree(cfg, s')
  {
    var t := s.world.tables;
    forall id | id in t.clients ensures ClientAgrees(cfg, s', id) {
      assert ClientAgrees(cfg, s, id);
    }
    forall id, topic | id in t.clients && topic in t.topics && id in s'.devices
      ensures KeyAgrees(s'.devices[id], topic, (id, topic) in t.links, TopicKey(cfg, t, topic)) {
      ObeyEffect(s.devices[id], cmd, topic);
    }
  }

  /** One topic's key, or who is linked to it, changes; commands about that topic go to `reached`. */
  lemma TopicChangeAgrees(cfg: Config, s: System, s': System, topic: string, reached: set<Bytes>, cmd: Command)
    requires Agree(cfg, s) && Consistent(cfg.lib, s'.world.tables) && s'.world.c2Secret == s.world.c2Secret
    requires cmd == Command.RemoveTopic(topic) || (cmd.SetTopicKey? && cmd.topic == topic && cmd.key in s'.drawn)
    requires Obeyed(s.devices, s'.devices, reached, cmd) && s.drawn <= s'.drawn
    requires var t, t' := s.world.tables, s'.world.tables;
      && t'.clients == t.clients && topic in t'.topics && t'.topics == t.topics[topic := t'.topics[topic]]
      && (forall id, other :: other != topic ==> ((id, other) in t'.links <==> (id, other) in t.links))
      && TopicKey(cfg, t', topic).Some? && TopicKey(cfg, t', topic).value in s'.drawn
      && forall id :: id in t.clients && id in s'.devices ==>
           KeyAgrees(s'.devices[id], topic, (id, topic) in t'.links, TopicKey(cfg, t', topic))
    ensures Agree(cfg, s')
  {
    var t, t' := s.world.tables, s'.world.tables;
    forall id | id in t'.clients ensures ClientAgrees(cfg, s', id) {
      assert ClientAgrees(cfg, s, id);
    }
    forall other | other in t'.topics && other != topic
      ensures other in t.topics && TopicKey(cfg, t', other) == TopicKey(cfg, t, other) {
    }
    forall id, other | id in t'.clients && other in t'.topics && id in s'.devices
      ensures KeyAgrees(s'.devices[id], other, (id, other) in t'.links, TopicKey(cfg, t', other)) {
      if other != topic { ObeyEffect(s.devices[id], cmd, other); }
    }
    forall id, other | id in t'.clients && id in s'.devices && other in s'.devices[id].topicKeys
      ensures s'.devices[id].topicKeys[other] in s'.drawn {
      ObeyEffect(s.devices[id], cmd, other);
      assert Holds(s'.devices[id], other).Some?;
      if Holds(s.devices[id], other) == Holds(s'.devices[id], other) {
        assert other in s.devices[id].topicKeys;
      }
    }
  }

  lemma SendOneAgrees(cfg: Config, s: System, s': System, id: Bytes, cmd: Command, f: Faults)
    requires cfg.lib.Sound() && Agree(cfg, s) && Harmless(cmd)
    requires s'.world == SendOne(cfg, s.world, id, cmd, f).0 && s'.drawn == s.drawn
    requires |s.world.sent| <= |s'.world.sent|
    requires s'.devices == Deliver(cfg, s.devices, s'.world.sent[|s.world.sent|..])
    ensures Agree(cfg, s')
  {
    var t := s.world.tables;
    if id in t.clients {
      assert ClientAgrees(cfg, s, id);
      SendObeyed(cfg, s.world, cmd, Row(t, id), f, s.devices);
      if s'.world != s.world {
        HarmlessAgrees(cfg, s, s', {id}, cmd);
      }
    }
  }

  /** The tables once client and topic are linked, or unlinked. */
  function WithLink(t: Tables, id: Bytes, topic: string, linked: bool): Tables {
    t.(links := if linked then t.links + {(id, topic)} else t.links - {(id, topic)})
  }

  function LinkCommand(cfg: Config, t: Tables, topic: string, linked: bool): Command
    requires topic in t.topics && TopicKey(cfg, t, topic).Some?
  {
    if linked then SetTopicKey(topic, TopicKey(cfg, t, topic).value) else Command.RemoveTopic(topic)
  }

  /** A device is told, then the link is made to match: the pair agrees again. */
  lemma LinkChangeAgrees(cfg: Config, s: System, s': System, id: Bytes, topic: string, linked: bool)
    requires Agree(cfg, s) && id in s.world.tables.clients && topic in s.world.tables.topics
    requires s'.world.tables == WithLink(s.world.tables, id, topic, linked)
    requires s'.world.c2Secret == s.world.c2Secret && s'.drawn == s.drawn
    requires Obeyed(s.devices, s'.devices, {id}, LinkCommand(cfg, s.world.tables, topic, linked))
    ensures Agree(cfg, s')
  {
    var t, t' := s.world.tables, s'.world.tables;
    var cmd := LinkCommand(cfg, t, topic, linked);
    forall other | other in t.clients && other in s'.devices
      ensures KeyAgrees(s'.devices[other], topic, (other, topic) in t'.links, TopicKey(cfg, t, topic)) {
      ObeyEffect(s.devices[other], cmd, topic);
    }
    TopicChangeAgrees(cfg, s, s', topic, {id}, cmd);
  }

  predicate LinkCall(call: Call) {
    call.CallNewTopicClient? || call.CallRemoveTopicClient?
  }

  /** What a calm link or unlink call comes to: nothing, or the device told and the link made. */
  lemma LinkCallFacts(cfg: Config, s: System, input: Input)
    requires cfg.Usable() && cfg.lib.Sound() && Agree(cfg, s) && LinkCall(input.call) && Calm(cfg, s, input)
    ensures var t, w' := s.world.tables, Perform(cfg, s.world, input.call, input.faults).0;
      var id, topic, linked := input.call.id, input.call.topic, input.call.CallNewTopicClient?;
      || w' == s.world
      || (&& id in t.clients && topic in t.topics && TopicKey(cfg, t, topic).Some?
          && w'.tables == WithLink(t, id, topic, linked)
          && w'.c2Secret == s.world.c2Secret && |s.world.sent| <= |w'.sent|
          && Obeyed(s.devices, Deliver(cfg, s.devices, w'.sent[|s.world.sent|..]), {id},
                    LinkCommand(cfg, t, topic, linked)))
  {
    hide Send, Deliver, Obeyed;
    var t := s.world.tables;
    var id, topic := input.call.id, input.call.topic;
    if id in t.clients && topic in t.topics {
      assert ClientAgrees(cfg, s, id);
      var linked := input.call.CallNewTopicClient?;
      var cmd := LinkCommand(cfg, t, topic, linked);
      SendObeyed(cfg, s.world, cmd, Row(t, id), input.faults, s.devices);
    }
  }

  lemma LinkCallsAgree(cfg: Config, s: System, input: Input)
    requires cfg.Usable() && cfg.lib.Sound() && Agree(cfg, s) && LinkCall(input.call) && Calm(cfg, s, input)
    ensures Agree(cfg, Advance(cfg, s, input))
  {
    var s' := Advance(cfg, s, input);
    LinkCallFacts(cfg, s, input);
    if s'.world != s.world {
      LinkChangeAgrees(cfg, s, s', input.call.id, input.call.topic, input.call.CallNewTopicClient?);
    }
  }

  /** A command to a whole listing, with no failed publish, is obeyed by exactly the listed clients. */
  lemma ListingObeys(cfg: Config, s: System, w: World, cmd: Command, ids: set<Bytes>, f: Faults)
    requires cfg.lib.Sound() && ClientsAgree(cfg, s) && forall id :: !f(Publish(id))
    requires w.tables.clients == s.world.tables.clients && w.c2Secret == s.world.c2Secret
    requires NamesUnique(w.tables) && ids <= w.tables.clients.Keys
    ensures var w' := SendAll(cfg, w, cmd, Rows(w.tables, Listing(w.tables, ids)), f);
      && |w.sent| <= |w'.sent|
      && Obeyed(s.devices, Deliver(cfg, s.devices, w'.sent[|w.sent|..]), ids, cmd)
  {
    var clients := Rows(w.tables, Listing(w.tables, ids));
    ListingReached(w.tables, ids, f);
    forall c | c in clients ensures c.id in s.devices && Paired(cfg, w.c2Secret, s.devices[c.id], c.key) {
      assert ClientAgrees(cfg, s, c.id);
    }
    SendAllObeyed(cfg, w, cmd, clients, f, s.devices);
  }

  // ---- NewTopic

  lemma CalmTargetsAreLinked(cfg: Config, t: Tables, topic: string, f: Faults)
    requires cfg.Usable() && NamesUnique(t)
    requires !f(CommandType) && !f(CountLost) && forall o :: !f(ReadPage(o))
    ensures TopicTargets(cfg, t, topic, f) == TopicClients(t, topic)
  {
    var clients, keep := TopicClients(t, topic), Readable(f, cfg.topicBatch);
    forall i: nat | i < |clients| ensures keep(i) {
      assert !f(ReadPage(PageStart(i, cfg.topicBatch)));
    }
    SelectAll(clients, keep);
  }

  lemma NewTopicFacts(cfg: Config, s: System, input: Input, t: Tables)
    requires cfg.Usable() && cfg.lib.Sound() && Agree(cfg, s) && input.call.CallNewTopic? && Calm(cfg, s, input)
    requires CommitTopic(cfg, s.world.tables, input.call.topic, input.call.key, input.faults) == Ok(t)
    ensures var w' := NewTopic(cfg, s.world, input.call.topic, input.call.key, input.faults).0;
      && w'.tables == t && w'.c2Secret == s.world.c2Secret && |s.world.sent| <= |w'.sent|
      && Obeyed(s.devices, Deliver(cfg, s.devices, w'.sent[|s.world.sent|..]),
                ClientsOf(t, input.call.topic), SetTopicKey(input.call.topic, input.call.key))
  {
    var f, topic, key := input.faults, input.call.topic, input.call.key;
    CalmTargetsAreLinked(cfg, t, topic, f);
    ListingObeys(cfg, s, s.world.(tables := t), SetTopicKey(topic, key), ClientsOf(t, topic), f);
  }

  /** A fresh key is stored and obeyed by exactly the linked clients. */
  lemma FreshKeyAgrees(cfg: Config, s: System, s': System, topic: string, key: Bytes)
    requires cfg.lib.Sound() && Agree(cfg, s) && key !in s.drawn && s'.drawn == s.drawn + {key}
    requires var t := s.world.tables;
      s'.world.tables == t.(topics := t.topics[topic := cfg.lib.encrypt(cfg.dbKey, key)])
    requires s'.world.c2Secret == s.world.c2Secret && Consistent(cfg.lib, s'.world.tables)
    requires Obeyed(s.devices, s'.devices, ClientsOf(s'.world.tables, topic), SetTopicKey(topic, key))
    ensures Agree(cfg, s')
  {
    var t, t' := s.world.tables, s'.world.tables;
    assert cfg.lib.decrypt(cfg.dbKey, t'.topics[topic]) == Some(key);
    forall id | id in t.clients && id in s'.devices
      ensures KeyAgrees(s'.devices[id], topic, (id, topic) in t'.links, Some(key)) {
      ObeyEffect(s.devices[id], SetTopicKey(topic, key), topic);
      if topic in s.devices[id].topicKeys {
        assert s.devices[id].topicKeys[topic] in s.drawn;
      }
    }
    TopicChangeAgrees(cfg, s, s', topic, ClientsOf(t', topic), SetTopicKey(topic, key));
  }

  lemma MoreDrawnAgrees(cfg: Config, s: System, s': System)
    requires Agree(cfg, s) && s'.world == s.world && s'.devices == s.devices && s.drawn <= s'.drawn
    ensures Agree(cfg, s')
  {
    forall id | id in s'.world.tables.clients ensures ClientAgrees(cfg, s', id) {
      assert ClientAgrees(cfg, s, id);
    }
  }

  lemma NewTopicAgrees(cfg: Config, s: System, input: Input)
    requires cfg.Usable() && cfg.lib.Sound() && Agree(cfg, s) && input.call.CallNewTopic?
    requires Admissible(cfg, s, input) && Calm(cfg, s, input)
    ensures Agree(cfg, Advance(cfg, s, input))
  {
    var topic, key := input.call.topic, input.call.key;
    CallKeepsStore(cfg, s.world, input.call, input.faults);
    match CommitTopic(cfg, s.world.tables, topic, key, input.faults)
    case Err(_) => MoreDrawnAgrees(cfg, s, Advance(cfg, s, input));
    case Ok(t) =>
      NewTopicFacts(cfg, s, input, t);
      FreshKeyAgrees(cfg, s, Advance(cfg, s, input), topic, key);
  }

  // ---- NewClientKey

  /** A device takes a new key and its row the matching half: they are paired again. */
  lemma RekeyedAgrees(cfg: Config, s: System, s': System, id: Bytes, key: Bytes)
    requires cfg.lib.Sound() && Agree(cfg, s) && id in s.world.tables.clients
    requires cfg.lib.ValidKey(cfg.pubKeyMode, cfg.lib.StoredHalf(cfg.pubKeyMode, key))
    requires var t, row := s.world.tables, cfg.lib.encrypt(cfg.dbKey, cfg.lib.StoredHalf(cfg.pubKeyMode, key));
      s'.world.tables == t.(clients := t.clients[id := t.clients[id].(key := row)])
    requires s'.world.c2Secret == s.world.c2Secret && s'.drawn == s.drawn
    requires Obeyed(s.devices, s'.devices, {id}, SetIDKey(key))
    ensures Agree(cfg, s')
  {
    var t, t' := s.world.tables, s'.world.tables;
    var stored := cfg.lib.StoredHalf(cfg.pubKeyMode, key);
    assert cfg.lib.decrypt(cfg.dbKey, cfg.lib.encrypt(cfg.dbKey, stored)) == Some(stored);
    forall other | other in t'.clients ensures ClientAgrees(cfg, s', other) {
      assert ClientAgrees(cfg, s, other);
    }
    forall other, topic | other in t'.clients && topic in t'.topics && other in s'.devices
      ensures KeyAgrees(s'.devices[other], topic, (other, topic) in t'.links, TopicKey(cfg, t', topic)) {
      ObeyEffect(s.devices[other], SetIDKey(key), topic);
      assert TopicKey(cfg, t', topic) == TopicKey(cfg, t, topic);
    }
    NewKeyStaysConsistent(cfg.lib, t, id, cfg.lib.encrypt(cfg.dbKey, stored));
  }

  function Rekeyed(cfg: Config, t: Tables, id: Bytes, key: Bytes): Tables
    requires id in t.clients
  {
    var row := cfg.lib.encrypt(cfg.dbKey, cfg.lib.StoredHalf(cfg.pubKeyMode, key));
    t.(clients := t.clients[id := t.clients[id].(key := row)])
  }

  /** NewClientKey up to its store update: the device is rekeyed and the row to match. */
  lemma RekeySent(cfg: Config, s: System, id: Bytes, key: Bytes, f: Faults) returns (mid: System)
    requires cfg.lib.Sound() && Agree(cfg, s) && id in s.world.tables.clients
    requires cfg.lib.ValidKey(cfg.pubKeyMode, cfg.lib.StoredHalf(cfg.pubKeyMode, key))
    requires Send(cfg, s.world, SetIDKey(key), Row(s.world.tables, id), f).Some?
    ensures Agree(cfg, mid) && mid.drawn == s.drawn && |s.world.sent| <= |mid.world.sent|
    ensures mid.world == Send(cfg, s.world, SetIDKey(key), Row(s.world.tables, id), f).value
              .(tables := Rekeyed(cfg, s.world.tables, id, key))
    ensures mid.devices == Deliver(cfg, s.devices, mid.world.sent[|s.world.sent|..])
  {
    var sent := Send(cfg, s.world, SetIDKey(key), Row(s.world.tables, id), f).value;
    assert ClientAgrees(cfg, s, id);
    SendObeyed(cfg, s.world, SetIDKey(key), Row(s.world.tables, id), f, s.devices);
    mid := System(sent.(tables := Rekeyed(cfg, s.world.tables, id, key)),
                  Deliver(cfg, s.devices, sent.sent[|s.world.sent|..]), s.drawn);
    RekeyedAgrees(cfg, s, mid, id, key);
  }

  /** What a calm NewClientKey comes to: nothing, or a rekeyed client and perhaps a fan-out after it. */
  ghost predicate RekeyOutcome(cfg: Config, w: World, w': World, id: Bytes, key: Bytes, f: Faults)
    requires cfg.Usable()
  {
    || w' == w
    || (&& id in w.tables.clients && Send(cfg, w, SetIDKey(key), Row(w.tables, id), f).Some?
        && var mid := Send(cfg, w, SetIDKey(key), Row(w.tables, id), f).value
                        .(tables := Rekeyed(cfg, w.tables, id, key));
           var cmd := SetPubKey(cfg.lib.StoredHalf(cfg.pubKeyMode, key), w.tables.clients[id].name);
           && NamesUnique(mid.tables)
           && (w' == mid || w' == SendAll(cfg, mid, cmd, FanOut(LinkedClients(mid.tables, id), cfg.linkedBatch, f), f)))
  }

  lemma NewClientKeyShape(cfg: Config, w: World, id: Bytes, key: Bytes, f: Faults)
    requires cfg.Usable() && Consistent(cfg.lib, w.tables)
    requires !f(Encrypt) && !f(Lookup) && !f(WriteRow)
    ensures RekeyOutcome(cfg, w, NewClientKey(cfg, w, id, key, f).0, id, key, f)
  {
    if id in w.tables.clients {
      var stored := cfg.lib.StoredHalf(cfg.pubKeyMode, key);
      RekeyPassesNameCheck(cfg.lib, w.tables, id, cfg.lib.encrypt(cfg.dbKey, stored), f);
    }
  }

  /** The public-key fan-out that may end NewClientKey changes nothing that agreement is about. */
  lemma PubKeyFanOutAgrees(cfg: Config, s: System, mid: System, s': System, id: Bytes, cmd: Command, f: Faults)
    requires cfg.Usable() && cfg.lib.Sound() && Agree(cfg, mid) && Harmless(cmd)
    requires |s.world.sent| <= |mid.world.sent| && s'.drawn == mid.drawn
    requires mid.devices == Deliver(cfg, s.devices, mid.world.sent[|s.world.sent|..])
    requires var targets := FanOut(LinkedClients(mid.world.tables, id), cfg.linkedBatch, f);
      s'.world == SendAll(cfg, mid.world, cmd, targets, f)
    requires |s.world.sent| <= |s'.world.sent| &&
      s'.devices == Deliver(cfg, s.devices, s'.world.sent[|s.world.sent|..])
    ensures Agree(cfg, s')
  {
    var t := mid.world.tables;
    var all := LinkedClients(t, id);
    var targets := FanOut(all, cfg.linkedBatch, f);
    ListingRows(t, PeersOf(t, id));
    SelectedRows(t, all, Readable(f, cfg.linkedBatch));
    forall c | c in targets ensures c.id in mid.devices && Paired(cfg, mid.world.c2Secret, mid.devices[c.id], c.key) {
      assert ClientAgrees(cfg, mid, c.id);
    }
    FanOutReaches(cfg, mid.world, cmd, targets, f, s.devices, |s.world.sent|);
    HarmlessAgrees(cfg, mid, s', Reached(targets, f), cmd);
  }

  lemma RekeyOutcomeAgrees(cfg: Config, s: System, s': System, id: Bytes, key: Bytes, f: Faults)
    requires cfg.Usable() && cfg.lib.Sound() && Agree(cfg, s) && s'.drawn == s.drawn
    requires cfg.lib.ValidKey(cfg.pubKeyMode, cfg.lib.StoredHalf(cfg.pubKeyMode, key))
    requires RekeyOutcome(cfg, s.world, s'.world, id, key, f) && |s.world.sent| <= |s'.world.sent|
    requires s'.devices == Deliver(cfg, s.devices, s'.world.sent[|s.world.sent|..])
    ensures Agree(cfg, s')
  {
    if s'.world == s.world {
      assert s' == s;
    } else {
      var mid := RekeySent(cfg, s, id, key, f);
      if s'.world == mid.world {
        assert s' == mid;
      } else {
        var cmd := SetPubKey(cfg.lib.StoredHalf(cfg.pubKeyMode, key), s.world.tables.clients[id].name);
        PubKeyFanOutAgrees(cfg, s, mid, s', id, cmd, f);
      }
    }
  }

  lemma NewClientKeyAgrees(cfg: Config, s: System, input: Input)
    requires cfg.Usable() && cfg.lib.Sound() && Agree(cfg, s) && input.call.CallNewClientKey?
    requires Admissible(cfg, s, input) && Calm(cfg, s, input)
    ensures Agree(cfg, Advance(cfg, s, input))
  {
    NewClientKeyShape(cfg, s.world, input.call.id, input.call.key, input.faults);
    RekeyOutcomeAgrees(cfg, s, Advance(cfg, s, input), input.call.id, input.call.key, input.faults);
  }

  // ---- NewC2Key

  lemma C2TargetsAreAll(cfg: Config, t: Tables)
    requires NamesUnique(t) && ReachesAll(cfg, t)
    ensures C2Targets(AllClients(t), cfg.c2Batch) == AllClients(t)
  {
    assert |AllClients(t)| == |t.clients.Keys| == |t.clients|;
  }

  lemma NewC2KeyFacts(cfg: Config, s: System, input: Input)
    requires cfg.lib.Sound() && Agree(cfg, s) && input.call.CallNewC2Key? && Calm(cfg, s, input)
    requires cfg.Usable() && cfg.pubKeyMode && input.call.backed && !input.faults(Build)
    ensures var w' := Perform(cfg, s.world, input.call, input.faults).0;
      && w'.tables == s.world.tables && w'.c2Secret == input.call.key && |s.world.sent| <= |w'.sent|
      && Obeyed(s.devices, Deliver(cfg, s.devices, w'.sent[|s.world.sent|..]),
                s.world.tables.clients.Keys, SetC2Key(cfg.lib.C2Public(input.call.key)))
  {
    var t := s.world.tables;
    C2TargetsAreAll(cfg, t);
    ListingObeys(cfg, s, s.world, SetC2Key(cfg.lib.C2Public(input.call.key)), t.clients.Keys, input.faults);
  }

  lemma NewC2KeyAgrees(cfg: Config, s: System, input: Input)
    requires cfg.Usable() && cfg.lib.Sound() && Agree(cfg, s) && input.call.CallNewC2Key? && Calm(cfg, s, input)
    ensures Agree(cfg, Advance(cfg, s, input))
  {
    var s' := Advance(cfg, s, input);
    if s'.world != s.world {
      NewC2KeyFacts(cfg, s, input);
      RotatedAgrees(cfg, s, s', input.call.key);
    } else {
      assert s'.devices == s.devices;
      MoreDrawnAgrees(cfg, s, s');
    }
  }

  /** Every registered device trusts the new public key and the server uses the new private one. */
  lemma RotatedAgrees(cfg: Config, s: System, s': System, key: Bytes)
    requires Agree(cfg, s) && s'.world.tables == s.world.tables && s'.world.c2Secret == key && s'.drawn == s.drawn
    requires Obeyed(s.devices, s'.devices, s.world.tables.clients.Keys, SetC2Key(cfg.lib.C2Public(key)))
    ensures Agree(cfg, s')
  {
    var t := s.world.tables;
    var cmd := SetC2Key(cfg.lib.C2Public(key));
    forall id | id in t.clients ensures ClientAgrees(cfg, s', id) {
      assert ClientAgrees(cfg, s, id);
    }
    forall id, topic | id in t.clients && topic in t.topics && id in s'.devices
      ensures KeyAgrees(s'.devices[id], topic, (id, topic) in t.links, TopicKey(cfg, t, topic)) {
      ObeyEffect(s.devices[id], cmd, topic);
    }
  }

  // ---- Calls that send one command and keep the tables

  predicate OnlySends(call: Call) {
    call.CallResetClient? || call.CallSendClientPubKey? || call.CallRemoveClientPubKey? || call.CallResetClientPubKeys?
  }

  lemma SendCallShape(cfg: Config, w: World, call: Call, f: Faults) returns (id: Bytes, cmd: Command)
    requires cfg.Usable() && NamesUnique(w.tables) && OnlySends(call)
    ensures Harmless(cmd)
    ensures var w' := Perform(cfg, w, call, f).0;
      w' == w || w' == SendOne(cfg, w, id, cmd, f).0
  {
    match call
    case CallResetClient(target) => id, cmd := target, ResetTopics;
    case CallSendClientPubKey(source, target) =>
      var key := if source in w.tables.clients then cfg.lib.decrypt(cfg.dbKey, w.tables.clients[source].key) else None;
      var name := if source in w.tables.clients then w.tables.clients[source].name else "";
      id, cmd := target, SetPubKey(if key.Some? then key.value else [], name);
    case CallRemoveClientPubKey(source, target) =>
      id, cmd := target, RemovePubKey(if source in w.tables.clients then w.tables.clients[source].name else "");
    case CallResetClientPubKeys(target) => id, cmd := target, ResetPubKeys;
    case _ =>
  }

  lemma SendCallsAgree(cfg: Config, s: System, input: Input)
    requires cfg.Usable() && cfg.lib.Sound() && Agree(cfg, s) && OnlySends(input.call)
    ensures Agree(cfg, Advance(cfg, s, input))
  {
    var s' := Advance(cfg, s, input);
    var id, cmd := SendCallShape(cfg, s.world, input.call, input.faults);
    if s'.world == s.world {
      MoreDrawnAgrees(cfg, s, s');
    } else {
      SendOneAgrees(cfg, s, s', id, cmd, input.faults);
    }
  }

  // ---- The main results

  /** Any call keeps devices and store in agreement, provided nothing fails after it published. */
  lemma CallKeepsAgreement(cfg: Config, s: System, input: Input)
    requires cfg.Usable() && cfg.lib.Sound() && Agree(cfg, s)
    requires Admissible(cfg, s, input) && Calm(cfg, s, input)
    ensures Agree(cfg, Advance(cfg, s, input))
  {
    if OnlyTables(input.call) {
      RemovalsAgree(cfg, s, input);
    } else if OnlySends(input.call) {
      SendCallsAgree(cfg, s, input);
    } else if LinkCall(input.call) {
      LinkCallsAgree(cfg, s, input);
    } else {
      match input.call
      case CallNewClient(name, id, key) => NewClientAgrees(cfg, s, name, id, key, input.faults, input.secret);
      case CallNewTopic(_, _) => NewTopicAgrees(cfg, s, input);
      case CallNewClientKey(_, _) => NewClientKeyAgrees(cfg, s, input);
      case CallNewC2Key(_, _, _) => NewC2KeyAgrees(cfg, s, input);
    }
  }

  /** The empty server, before its first call. */
  function Fresh(c2Secret: Bytes): System {
    System(World(EMPTY, c2Secret, [], [], {}), map[], {})
  }

  ghost function AdvanceAll(cfg: Config, s: System, inputs: seq<Input>): (r: System)
    requires cfg.Usable() && Consistent(cfg.lib, s.world.tables)
    ensures Consistent(cfg.lib, r.world.tables)
  {
    if inputs == [] then s
    else
      var before := AdvanceAll(cfg, s, inputs[..|inputs| - 1]);
      var last := inputs[|inputs| - 1];
      CallKeepsStore(cfg, before.world, last.call, last.faults);
      Advance(cfg, before, last)
  }

  ghost predicate CalmRun(cfg: Config, s: System, inputs: seq<Input>)
    requires cfg.Usable() && Consistent(cfg.lib, s.world.tables)
  {
    inputs == [] ||
    (var before, last := AdvanceAll(cfg, s, inputs[..|inputs| - 1]), inputs[|inputs| - 1];
     CalmRun(cfg, s, inputs[..|inputs| - 1]) && Admissible(cfg, before, last) && Calm(cfg, before, last))
  }

  lemma {:induction false} RunsAgree(cfg: Config, s: System, inputs: seq<Input>)
    requires cfg.Usable() && cfg.lib.Sound() && Agree(cfg, s) && CalmRun(cfg, s, inputs)
    ensures Agree(cfg, AdvanceAll(cfg, s, inputs))
  {
    if inputs != [] {
      RunsAgree(cfg, s, inputs[..|inputs| - 1]);
      CallKeepsAgreement(cfg, AdvanceAll(cfg, s, inputs[..|inputs| - 1]), inputs[|inputs| - 1]);
    }
  }

  /** What agreement says of one client, one topic and one command. */
  lemma AgreementMeans(cfg: Config, s: System, id: Bytes, topic: string, cmd: Command)
    requires cfg.lib.Sound() && Agree(cfg, s) && id in s.world.tables.clients
    ensures var t := s.world.tables;
      && id in s.devices
      && var d := s.devices[id];
         && (topic in t.topics && (id, topic) in t.links && !ResetSince(d.log, topic) ==>
              topic in d.topicKeys && TopicKey(cfg, t, topic) == Some(d.topicKeys[topic]))
         && (topic in t.topics && (id, topic) in t.links && ResetSince(d.log, topic) ==> topic !in d.topicKeys)
         && (topic in t.topics && (id, topic) !in t.links && topic in d.topicKeys ==>
              TopicKey(cfg, t, topic) != Some(d.topicKeys[topic]))
         && var stored := cfg.lib.decrypt(cfg.dbKey, t.clients[id].key);
            && stored == Some(cfg.lib.StoredHalf(cfg.pubKeyMode, d.key))
            && var sealed := cfg.lib.ProtectCommand(cfg.pubKeyMode, s.world.c2Secret, stored.value, cmd);
               sealed.Some? && Receive(cfg, d, sealed.value) == Obey(d, cmd)
  {
    hide Library.ProtectCommand, Library.OpenCommand;
    assert ClientAgrees(cfg, s, id);
    var d := s.devices[id];
    cfg.lib.CommandRoundTrip(cfg.pubKeyMode, s.world.c2Secret, d.key, cmd);
    if topic in s.world.tables.topics {
      assert KeyAgrees(d, topic, (id, topic) in s.world.tables.links, TopicKey(cfg, s.world.tables, topic));
      assert TopicKey(cfg, s.world.tables, topic).Some?;
    }
  }

  /**
   * Over every run of calls from the empty server: a linked client's device holds exactly the current key
   * of the topic, unless it obeyed a ResetTopics with no key for the topic after it, and then it holds
   * none; no registered unlinked client holds the current key; and every registered device opens what
   * the server protects for it.
   */
  lemma DevicesAgreeWithStore(cfg: Config, c2Secret: Bytes, inputs: seq<Input>, id: Bytes, topic: string, cmd: Command)
    requires cfg.Usable() && cfg.lib.Sound() && CalmRun(cfg, Fresh(c2Secret), inputs)
    requires id in AdvanceAll(cfg, Fresh(c2Secret), inputs).world.tables.clients
    ensures var s := AdvanceAll(cfg, Fresh(c2Secret), inputs);
      var t := s.world.tables;
      && id in s.devices
      && var d := s.devices[id];
         && (topic in t.topics && (id, topic) in t.links && (forall i :: !ResetAt(d.log, topic, i)) ==>
              topic in d.topicKeys && TopicKey(cfg, t, topic) == Some(d.topicKeys[topic]))
         && (topic in t.topics && (id, topic) in t.links && (exists i :: ResetAt(d.log, topic, i)) ==>
              topic !in d.topicKeys)
         && (topic in t.topics && (id, topic) !in t.links && topic in d.topicKeys ==>
              TopicKey(cfg, t, topic) != Some(d.topicKeys[topic]))
         && var stored := cfg.lib.decrypt(cfg.dbKey, t.clients[id].key);
            && stored == Some(cfg.lib.StoredHalf(cfg.pubKeyMode, d.key))
            && var sealed := cfg.lib.ProtectCommand(cfg.pubKeyMode, s.world.c2Secret, stored.value, cmd);
               sealed.Some? && Receive(cfg, d, sealed.value) == Obey(d, cmd)
  {
    hide Agree, ResetSince, ResetAt, Receive;
    var s := AdvanceAll(cfg, Fresh(c2Secret), inputs);
    RunsAgree(cfg, Fresh(c2Secret), inputs);
    AgreementMeans(cfg, s, id, topic, cmd);
    ResetSinceIff(s.devices[id].log, topic);
  }
}
