/** Exactly when a call that fails part-way parts the devices from the store. */
module Boundaries {
  import opened Wrappers
  import opened Pages
  import opened Crypto
  import opened Faults
  import opened Store
  import opened Model
  import opened Devices
  import opened Agreement

  // ---- Linking and unlinking

  /** The call gets as far as telling the device. */
  predicate Told(w: World, input: Input)
    requires LinkCall(input.call)
  {
    var id, topic, f := input.call.id, input.call.topic, input.faults;
    && id in w.tables.clients && topic in w.tables.topics
    && !f(ReadClient) && !f(ReadTopic) && !f(Build) && !f(Publish(id))
  }

  /** The join table is not updated after that. */
  predicate Unrecorded(input: Input)
    requires LinkCall(input.call)
  {
    var f := input.faults;
    f(Join) || f(Commit) || (input.call.CallRemoveTopicClient? && f(Recheck))
  }

  /** What the device was told differs from what the join table keeps saying. */
  predicate Matters(s: System, input: Input)
    requires LinkCall(input.call)
  {
    var id, topic := input.call.id, input.call.topic;
    var linked := (id, topic) in s.world.tables.links;
    if input.call.CallNewTopicClient? then !linked
    else linked && id in s.devices && !ResetSince(s.devices[id].log, topic)
  }

  /** A call that tells the device and then cannot update the join table comes to one message. */
  lemma UnrecordedShape(cfg: Config, w: World, input: Input)
    requires cfg.Usable() && NamesUnique(w.tables) && LinkCall(input.call)
    requires Told(w, input) && Unrecorded(input) && TopicKey(cfg, w.tables, input.call.topic).Some?
    ensures var cmd := LinkCommand(cfg, w.tables, input.call.topic, input.call.CallNewTopicClient?);
      var sent := Send(cfg, w, cmd, Row(w.tables, input.call.id), input.faults);
      Perform(cfg, w, input.call, input.faults).0 == if sent.Some? then sent.value else w
  {
    hide Send;
  }

  lemma UnrecordedFacts(cfg: Config, s: System, input: Input)
    requires cfg.Usable() && cfg.lib.Sound() && Agree(cfg, s) && LinkCall(input.call)
    requires Told(s.world, input) && Unrecorded(input)
    ensures var t, w' := s.world.tables, Perform(cfg, s.world, input.call, input.faults).0;
      var id, topic := input.call.id, input.call.topic;
      && TopicKey(cfg, t, topic).Some?
      && w'.tables == t && w'.c2Secret == s.world.c2Secret
      && Obeyed(s.devices, Deliver(cfg, s.devices, w'.sent[|s.world.sent|..]), {id},
                LinkCommand(cfg, t, topic, input.call.CallNewTopicClient?))
  {
    hide LinksAgree, Deliver, Perform, Send, Obeyed, Paired;
    var t := s.world.tables;
    var id, topic := input.call.id, input.call.topic;
    assert ClientAgrees(cfg, s, id);
    var cmd := LinkCommand(cfg, t, topic, input.call.CallNewTopicClient?);
    UnrecordedShape(cfg, s.world, input);
    SendObeyed(cfg, s.world, cmd, Row(t, id), input.faults, s.devices);
  }

  /** One device that hears of a link, or of its end, against a join table that did not change. */
  lemma ToldKeyAgreesIff(d: Device, topic: string, key: Bytes, was: bool, linked: bool)
    requires KeyAgrees(d, topic, was, Some(key))
    ensures var cmd := if linked then SetTopicKey(topic, key) else Command.RemoveTopic(topic);
      KeyAgrees(Obey(d, cmd), topic, was, Some(key)) <==> if linked then was else !was || ResetSince(d.log, topic)
  {
    ObeyEffect(d, if linked then SetTopicKey(topic, key) else Command.RemoveTopic(topic), topic);
  }

  lemma ToldAgreesIff(cfg: Config, s: System, s': System, id: Bytes, topic: string, linked: bool)
    requires Agree(cfg, s) && id in s.world.tables.clients && topic in s.world.tables.topics
    requires s'.world.tables == s.world.tables && s'.world.c2Secret == s.world.c2Secret && s'.drawn == s.drawn
    requires Obeyed(s.devices, s'.devices, {id}, LinkCommand(cfg, s.world.tables, topic, linked))
    ensures var was := (id, topic) in s.world.tables.links;
      Agree(cfg, s') <==> if linked then was else !was || (id in s.devices && ResetSince(s.devices[id].log, topic))
  {
    var t := s.world.tables;
    var was, current := (id, topic) in t.links, TopicKey(cfg, t, topic);
    assert ClientAgrees(cfg, s, id);
    ToldKeyAgreesIff(s.devices[id], topic, current.value, was, linked);
    if KeyAgrees(s'.devices[id], topic, was, current) {
      TopicChangeAgrees(cfg, s, s', topic, {id}, LinkCommand(cfg, t, topic, linked));
    }
  }

  /**
   * Linking or unlinking keeps agreement if and only if it is not the case that the device was
   * told, the join table was not updated, and the two now differ.
   */
  lemma LinkCallAgreesIff(cfg: Config, s: System, input: Input)
    requires cfg.Usable() && cfg.lib.Sound() && Agree(cfg, s) && LinkCall(input.call)
    ensures Agree(cfg, Advance(cfg, s, input))
       <==> !(Told(s.world, input) && Unrecorded(input) && Matters(s, input))
  {
    hide Perform, LinksAgree, KeysKnown, Paired, Obeyed, Calm;
    var s' := Advance(cfg, s, input);
    if !Unrecorded(input) {
      CalmUnlessUnrecorded(cfg, s, input);
      LinkCallsAgree(cfg, s, input);
    } else if Told(s.world, input) {
      UnrecordedFacts(cfg, s, input);
      ToldAgreesIff(cfg, s, s', input.call.id, input.call.topic, input.call.CallNewTopicClient?);
      assert ClientAgrees(cfg, s, input.call.id);
    } else {
      UntoldChangesNothing(cfg, s.world, input);
      MoreDrawnAgrees(cfg, s, s');
    }
  }

  lemma CalmUnlessUnrecorded(cfg: Config, s: System, input: Input)
    requires LinkCall(input.call) && !Unrecorded(input)
    ensures Calm(cfg, s, input)
  {
  }

  lemma UntoldChangesNothing(cfg: Config, w: World, input: Input)
    requires cfg.Usable() && NamesUnique(w.tables) && LinkCall(input.call) && !Told(w, input)
    ensures Perform(cfg, w, input.call, input.faults).0 == w
  {
  }

  // ---- NewTopic

  lemma TopicTargetsAreRows(cfg: Config, t: Tables, topic: string, f: Faults)
    requires cfg.Usable() && NamesUnique(t)
    ensures AreRows(t, TopicTargets(cfg, t, topic, f)) && DistinctIds(TopicTargets(cfg, t, topic, f))
    ensures Reached(TopicTargets(cfg, t, topic, f), f) <= ClientsOf(t, topic)
  {
    hide Rows, Listing, Select, Distinct;
    var clients := TopicClients(t, topic);
    ListingRows(t, ClientsOf(t, topic));
    SelectedRows(t, clients, Readable(f, cfg.topicBatch));
    SelectMembers(clients, Readable(f, cfg.topicBatch));
    ReachedRows(t, TopicTargets(cfg, t, topic, f), f);
  }

  lemma CommittedTopicFacts(cfg: Config, s: System, input: Input, t: Tables)
    requires cfg.Usable() && cfg.lib.Sound() && Agree(cfg, s) && input.call.CallNewTopic?
    requires CommitTopic(cfg, s.world.tables, input.call.topic, input.call.key, input.faults) == Ok(t)
    ensures NamesUnique(t)
    ensures var w' := NewTopic(cfg, s.world, input.call.topic, input.call.key, input.faults).0;
      && w'.tables == t && w'.c2Secret == s.world.c2Secret
      && Obeyed(s.devices, Deliver(cfg, s.devices, w'.sent[|s.world.sent|..]),
                Reached(TopicTargets(cfg, t, input.call.topic, input.faults), input.faults),
                SetTopicKey(input.call.topic, input.call.key))
  {
    var f, topic, key := input.faults, input.call.topic, input.call.key;
    var targets := TopicTargets(cfg, t, topic, f);
    TopicTargetsAreRows(cfg, t, topic, f);
    forall c | c in targets ensures c.id in s.devices && Paired(cfg, s.world.c2Secret, s.devices[c.id], c.key) {
      assert ClientAgrees(cfg, s, c.id);
    }
    SendAllObeyed(cfg, s.world.(tables := t), SetTopicKey(topic, key), targets, f, s.devices);
  }

  /** The client's device obeyed a ResetTopics and has got no key for the topic since: it is due none. */
  predicate WasReset(s: System, id: Bytes, topic: string) {
    id in s.devices && ResetSince(s.devices[id].log, topic)
  }

  lemma PartialKeyAgreesIff(cfg: Config, s: System, s': System, topic: string, key: Bytes, reached: set<Bytes>)
    requires cfg.lib.Sound() && Agree(cfg, s) && key !in s.drawn && s'.drawn == s.drawn + {key}
    requires var t := s.world.tables;
      s'.world.tables == t.(topics := t.topics[topic := cfg.lib.encrypt(cfg.dbKey, key)])
    requires s'.world.c2Secret == s.world.c2Secret && Consistent(cfg.lib, s'.world.tables)
    requires reached <= ClientsOf(s'.world.tables, topic)
    requires Obeyed(s.devices, s'.devices, reached, SetTopicKey(topic, key))
    ensures Agree(cfg, s') <==>
      forall id :: id in ClientsOf(s'.world.tables, topic) ==> id in reached || WasReset(s, id, topic)
  {
    var t, t' := s.world.tables, s'.world.tables;
    var cmd := SetTopicKey(topic, key);
    assert TopicKey(cfg, t', topic) == Some(key);
    forall id | id in t.clients
      ensures id in s'.devices
      ensures KeyAgrees(s'.devices[id], topic, (id, topic) in t'.links, Some(key))
         <==> id !in ClientsOf(t', topic) || id in reached || WasReset(s, id, topic)
    {
      assert ClientAgrees(cfg, s, id);
      ObeyEffect(s.devices[id], cmd, topic);
      if topic in s.devices[id].topicKeys {
        assert s.devices[id].topicKeys[topic] in s.drawn;
      }
      if (id, topic) in t.links {
        assert KeyAgrees(s.devices[id], topic, true, TopicKey(cfg, t, topic));
      }
    }
    if forall id :: id in ClientsOf(t', topic) ==> id in reached || WasReset(s, id, topic) {
      TopicChangeAgrees(cfg, s, s', topic, reached, cmd);
    }
  }

  /**
   * A committed NewTopic keeps agreement if and only if its fan-out reached every linked client,
   * but for those whose device was reset and holds no key for the topic anyway.
   */
  lemma NewTopicAgreesIff(cfg: Config, s: System, input: Input, t: Tables)
    requires cfg.Usable() && cfg.lib.Sound() && Agree(cfg, s) && input.call.CallNewTopic?
    requires Admissible(cfg, s, input)
    requires CommitTopic(cfg, s.world.tables, input.call.topic, input.call.key, input.faults) == Ok(t)
    ensures var topic := input.call.topic;
      var reached := Reached(TopicTargets(cfg, t, topic, input.faults), input.faults);
      Agree(cfg, Advance(cfg, s, input)) <==>
        forall id :: id in ClientsOf(t, topic) ==> id in reached || WasReset(s, id, topic)
  {
    var topic := input.call.topic;
    CallKeepsStore(cfg, s.world, input.call, input.faults);
    CommittedTopicFacts(cfg, s, input, t);
    TopicTargetsAreRows(cfg, t, topic, input.faults);
    PartialKeyAgreesIff(cfg, s, Advance(cfg, s, input), topic, input.call.key,
                        Reached(TopicTargets(cfg, t, topic, input.faults), input.faults));
  }

  // ---- NewClientKey

  /** The call gets as far as sending the device its new key. */
  predicate KeySent(w: World, input: Input)
    requires input.call.CallNewClientKey?
  {
    var id, f := input.call.id, input.faults;
    id in w.tables.clients && !f(ReadClient) && !f(NewKey) && !f(Build) && !f(Publish(id))
  }

  /** The client's row is not updated after that. */
  predicate KeyUnrecorded(input: Input) {
    var f := input.faults;
    f(Encrypt) || f(Lookup) || f(WriteRow)
  }

  /** The device has a key whose stored half is not the one in its row. */
  predicate KeyMatters(cfg: Config, s: System, input: Input)
    requires input.call.CallNewClientKey?
  {
    var id := input.call.id;
    id in s.devices &&
    cfg.lib.StoredHalf(cfg.pubKeyMode, input.call.key) != cfg.lib.StoredHalf(cfg.pubKeyMode, s.devices[id].key)
  }

  lemma UnrecordedKeyFacts(cfg: Config, s: System, input: Input)
    requires cfg.Usable() && cfg.lib.Sound() && Agree(cfg, s) && input.call.CallNewClientKey?
    requires KeySent(s.world, input) && KeyUnrecorded(input)
    ensures var t, w' := s.world.tables, Perform(cfg, s.world, input.call, input.faults).0;
      && w'.tables == t && w'.c2Secret == s.world.c2Secret
      && Obeyed(s.devices, Deliver(cfg, s.devices, w'.sent[|s.world.sent|..]), {input.call.id},
                SetIDKey(input.call.key))
  {
    assert ClientAgrees(cfg, s, input.call.id);
    SendObeyed(cfg, s.world, SetIDKey(input.call.key), Row(s.world.tables, input.call.id), input.faults, s.devices);
  }

  lemma KeyToldAgreesIff(cfg: Config, s: System, s': System, id: Bytes, key: Bytes)
    requires Agree(cfg, s) && id in s.world.tables.clients
    requires s'.world.tables == s.world.tables && s'.world.c2Secret == s.world.c2Secret && s'.drawn == s.drawn
    requires Obeyed(s.devices, s'.devices, {id}, SetIDKey(key))
    ensures id in s.devices
    ensures Agree(cfg, s') <==>
      cfg.lib.StoredHalf(cfg.pubKeyMode, key) == cfg.lib.StoredHalf(cfg.pubKeyMode, s.devices[id].key)
  {
    var t := s.world.tables;
    assert ClientAgrees(cfg, s, id);
    if ClientAgrees(cfg, s', id) {
      forall other | other in t.clients ensures ClientAgrees(cfg, s', other) {
        assert ClientAgrees(cfg, s, other);
      }
      forall other, topic | other in t.clients && topic in t.topics && other in s'.devices
        ensures KeyAgrees(s'.devices[other], topic, (other, topic) in t.links, TopicKey(cfg, t, topic)) {
        ObeyEffect(s.devices[other], SetIDKey(key), topic);
      }
    }
  }

  /**
   * NewClientKey keeps agreement if and only if it is not the case that the device was sent its new
   * key, the row was not updated, and the stored halves of the old and the new key differ.
   */
  lemma NewClientKeyAgreesIff(cfg: Config, s: System, input: Input)
    requires cfg.Usable() && cfg.lib.Sound() && Agree(cfg, s)
    requires input.call.CallNewClientKey? && Admissible(cfg, s, input)
    ensures Agree(cfg, Advance(cfg, s, input))
       <==> !(KeySent(s.world, input) && KeyUnrecorded(input) && KeyMatters(cfg, s, input))
  {
    hide Perform, LinksAgree, KeysKnown, Paired, Obeyed;
    var s' := Advance(cfg, s, input);
    if !KeyUnrecorded(input) {
      NewClientKeyAgrees(cfg, s, input);
    } else if KeySent(s.world, input) {
      UnrecordedKeyFacts(cfg, s, input);
      KeyToldAgreesIff(cfg, s, s', input.call.id, input.call.key);
    } else {
      UnsentKeyChangesNothing(cfg, s.world, input);
      MoreDrawnAgrees(cfg, s, s');
    }
  }

  lemma UnsentKeyChangesNothing(cfg: Config, w: World, input: Input)
    requires cfg.Usable() && NamesUnique(w.tables) && input.call.CallNewClientKey? && !KeySent(w, input)
    ensures Perform(cfg, w, input.call, input.faults).0 == w
  {
  }

  // ---- NewC2Key

  lemma PrefixRows(t: Tables, clients: seq<Client>, n: nat)
    requires AreRows(t, clients) && DistinctIds(clients) && n <= |clients|
    ensures AreRows(t, clients[..n]) && DistinctIds(clients[..n])
  {
    assert forall i :: 0 <= i < n ==> clients[..n][i] == clients[i] && clients[i] in clients;
  }

  lemma C2TargetsAreRows(cfg: Config, t: Tables)
    requires NamesUnique(t)
    ensures var targets := C2Targets(AllClients(t), cfg.c2Batch);
      AreRows(t, targets) && DistinctIds(targets)
  {
    hide Rows, Listing, Distinct, DistinctIds, AreRows;
    var all := AllClients(t);
    ListingRows(t, t.clients.Keys);
    RowsHaveDistinctIds(t, all);
    PrefixRows(t, all, Min(QUERY_LIMIT, |all|));
  }

  /** When the paging does not come to everyone, the client right after the first page is missed. */
  lemma C2TargetsMissSome(cfg: Config, t: Tables) returns (missed: Bytes)
    requires NamesUnique(t) && !ReachesAll(cfg, t)
    ensures missed in t.clients && Row(t, missed) !in C2Targets(AllClients(t), cfg.c2Batch)
  {
    var all := AllClients(t);
    ListingRows(t, t.clients.Keys);
    assert |all| == |t.clients.Keys| == |t.clients|;
    var c := all[QUERY_LIMIT];
    assert c in all && c == Row(t, c.id);
    missed := c.id;
  }

  /** The devices that hear of the new key. */
  function Informed(cfg: Config, s: System, input: Input): set<Bytes>
    requires NamesUnique(s.world.tables)
  {
    Reached(C2Targets(AllClients(s.world.tables), cfg.c2Batch), input.faults)
  }

  /** The rotation gets as far as its fan-out. */
  predicate RotationBegins(cfg: Config, input: Input) {
    input.call.CallNewC2Key? && cfg.pubKeyMode && input.call.backed && !input.faults(Build)
  }

  lemma AgreeingTargetsArePaired(cfg: Config, s: System, targets: seq<Client>)
    requires Agree(cfg, s) && AreRows(s.world.tables, targets)
    ensures forall c :: c in targets ==> c.id in s.devices && Paired(cfg, s.world.c2Secret, s.devices[c.id], c.key)
  {
    hide LinksAgree, KeysKnown;
    forall c | c in targets ensures c.id in s.devices && Paired(cfg, s.world.c2Secret, s.devices[c.id], c.key) {
      assert ClientAgrees(cfg, s, c.id);
    }
  }

  /** A rotation that begins is one fan-out, and then the new key if it commits. */
  lemma RotationShape(cfg: Config, w: World, input: Input)
    requires cfg.Usable() && NamesUnique(w.tables) && RotationBegins(cfg, input)
    ensures var cmd := SetC2Key(cfg.lib.C2Public(input.call.key));
      var targets := C2Targets(AllClients(w.tables), cfg.c2Batch);
      Perform(cfg, w, input.call, input.faults).0 ==
        SendAll(cfg, w, cmd, targets, input.faults)
          .(c2Secret := if input.call.committed then input.call.key else w.c2Secret)
  {
    hide SendAll, C2Targets, AllClients;
  }

  lemma RotationFacts(cfg: Config, s: System, input: Input)
    requires cfg.Usable() && cfg.lib.Sound() && Agree(cfg, s) && RotationBegins(cfg, input)
    ensures var w' := Perform(cfg, s.world, input.call, input.faults).0;
      && w'.tables == s.world.tables
      && w'.c2Secret == (if input.call.committed then input.call.key else s.world.c2Secret)
      && Obeyed(s.devices, Deliver(cfg, s.devices, w'.sent[|s.world.sent|..]),
                Informed(cfg, s, input), SetC2Key(cfg.lib.C2Public(input.call.key)))
    ensures Informed(cfg, s, input) <= s.world.tables.clients.Keys
  {
    hide SendAll, Deliver, Obeyed, LinksAgree, KeysKnown, C2Targets, AllClients, Perform, Paired, DistinctIds, AreRows;
    var t := s.world.tables;
    var targets := C2Targets(AllClients(t), cfg.c2Batch);
    C2TargetsAreRows(cfg, t);
    ReachedRows(t, targets, input.faults);
    AgreeingTargetsArePaired(cfg, s, targets);
    RotationShape(cfg, s.world, input);
    SendAllObeyed(cfg, s.world, SetC2Key(cfg.lib.C2Public(input.call.key)), targets, input.faults, s.devices);
  }

  /** A device that trusts another key than the server's does not agree with it. */
  lemma WrongKeyDisagrees(cfg: Config, s': System, id: Bytes)
    requires id in s'.world.tables.clients
    requires id in s'.devices ==> s'.devices[id].c2Public != cfg.lib.C2Public(s'.world.c2Secret)
    ensures !Agree(cfg, s')
  {
    assert !ClientAgrees(cfg, s', id);
  }

  lemma UnheardAgrees(cfg: Config, s: System, s': System)
    requires Agree(cfg, s) && s'.world.tables == s.world.tables && s'.world.c2Secret == s.world.c2Secret
    requires s'.devices == s.devices && s'.drawn == s.drawn
    ensures Agree(cfg, s')
  {
    forall id | id in s'.world.tables.clients ensures ClientAgrees(cfg, s', id) {
      assert ClientAgrees(cfg, s, id);
    }
  }

  lemma HeardAgreesIff(cfg: Config, s: System, s': System, key: Bytes, informed: set<Bytes>, committed: bool)
    requires Agree(cfg, s) && s'.world.tables == s.world.tables && s'.drawn == s.drawn
    requires s'.world.c2Secret == (if committed then key else s.world.c2Secret)
    requires cfg.lib.C2Public(key) != cfg.lib.C2Public(s.world.c2Secret)
    requires Obeyed(s.devices, s'.devices, informed, SetC2Key(cfg.lib.C2Public(key)))
    requires informed <= s.world.tables.clients.Keys
    ensures Agree(cfg, s') <==> informed == if committed then s.world.tables.clients.Keys else {}
  {
    hide Agree;
    var registered := s.world.tables.clients.Keys;
    if committed && informed == registered {
      RotatedAgrees(cfg, s, s', key);
    } else if !committed && informed == {} {
      assert s'.devices == s.devices;
      UnheardAgrees(cfg, s, s');
    } else {
      var id :| id in registered && (id in informed <==> !committed);
      HadTheKey(cfg, s, id);
      WrongKeyDisagrees(cfg, s', id);
    }
  }

  lemma HadTheKey(cfg: Config, s: System, id: Bytes)
    requires Agree(cfg, s) && id in s.world.tables.clients
    ensures id in s.devices && s.devices[id].c2Public == cfg.lib.C2Public(s.world.c2Secret)
  {
    assert ClientAgrees(cfg, s, id);
  }

  /**
   * A rotation to a really new key keeps devices and server able to talk if and only if it was
   * committed and every client heard of it, or it was not and none did.
   */
  lemma RotationAgreesIff(cfg: Config, s: System, input: Input)
    requires cfg.Usable() && cfg.lib.Sound() && Agree(cfg, s) && RotationBegins(cfg, input)
    requires cfg.lib.C2Public(input.call.key) != cfg.lib.C2Public(s.world.c2Secret)
    ensures Agree(cfg, Advance(cfg, s, input))
       <==> Informed(cfg, s, input) == if input.call.committed then s.world.tables.clients.Keys else {}
  {
    hide Informed, Perform, Obeyed, Deliver, ClientsAgree, LinksAgree, KeysKnown;
    RotationFacts(cfg, s, input);
    HeardAgreesIff(cfg, s, Advance(cfg, s, input), input.call.key, Informed(cfg, s, input), input.call.committed);
  }

  /** With no failed publish, everyone hears of it exactly when the batch or the table fits in one query. */
  lemma AllInformedIff(cfg: Config, s: System, input: Input)
    requires cfg.Usable() && NamesUnique(s.world.tables) && forall id :: !input.faults(Publish(id))
    ensures Informed(cfg, s, input) == s.world.tables.clients.Keys <==> ReachesAll(cfg, s.world.tables)
  {
    var t := s.world.tables;
    C2TargetsAreRows(cfg, t);
    ReachedRows(t, C2Targets(AllClients(t), cfg.c2Batch), input.faults);
    if ReachesAll(cfg, t) {
      C2TargetsAreAll(cfg, t);
      ListingReached(t, t.clients.Keys, input.faults);
    } else {
      var id := C2TargetsMissSome(cfg, t);
    }
  }

  lemma {:induction false} IdsSize(clients: seq<Client>, f: Faults)
    requires DistinctIds(clients) && forall id :: !f(Publish(id))
    ensures |Reached(clients, f)| == |clients|
  {
    if clients != [] {
      var n := |clients| - 1;
      IdsSize(clients[..n], f);
      assert Reached(clients, f) == Reached(clients[..n], f) + {clients[n].id};
    }
  }

  /**
   * With the shipped sizes, 500 against 100, and no failed publish: everyone is told exactly as long as
   * there are at most 100 clients, and no more than 100 are told.
   */
  lemma ShippedSizesMissClients(cfg: Config, s: System, input: Input)
    requires cfg.c2Batch == 500 && cfg.Usable() && NamesUnique(s.world.tables)
    requires forall id :: !input.faults(Publish(id))
    ensures var registered := s.world.tables.clients.Keys;
      && (Informed(cfg, s, input) == registered <==> |registered| <= 100)
      && |Informed(cfg, s, input)| == Min(|registered|, 100)
  {
    var t := s.world.tables;
    AllInformedIff(cfg, s, input);
    C2TargetsAreRows(cfg, t);
    IdsSize(C2Targets(AllClients(t), cfg.c2Batch), input.faults);
    assert |AllClients(t)| == |t.clients.Keys| == |t.clients|;
  }

  // ---- NewClient

  /** The call registers an ID that is registered already, and replaces its stored key. */
  predicate Overwrites(cfg: Config, w: World, input: Input)
    requires input.call.CallNewClient?
  {
    var f := input.faults;
    var chosen := ValidateE4NameOrIDPair(cfg.lib, input.call.name, input.call.id);
    && chosen.Some? && chosen.value in w.tables.clients && cfg.lib.ValidKey(cfg.pubKeyMode, input.call.key)
    && !f(Encrypt) && !f(Lookup) && !f(WriteRow)
  }

  lemma StoredKeyAgreesIff(cfg: Config, s: System, s': System, id: Bytes, key: Bytes)
    requires cfg.lib.Sound() && Agree(cfg, s) && id in s.world.tables.clients && Consistent(cfg.lib, s'.world.tables)
    requires var t := s.world.tables;
      s'.world.tables == t.(clients := t.clients[id := t.clients[id].(key := cfg.lib.encrypt(cfg.dbKey, key))])
    requires s'.world.c2Secret == s.world.c2Secret && s'.devices == s.devices && s'.drawn == s.drawn
    ensures id in s.devices
    ensures Agree(cfg, s') <==> key == cfg.lib.StoredHalf(cfg.pubKeyMode, s.devices[id].key)
  {
    assert ClientAgrees(cfg, s, id);
    assert cfg.lib.decrypt(cfg.dbKey, cfg.lib.encrypt(cfg.dbKey, key)) == Some(key);
    if ClientAgrees(cfg, s', id) {
      forall other | other in s'.world.tables.clients ensures ClientAgrees(cfg, s', other) {
        assert ClientAgrees(cfg, s, other);
      }
      assert forall topic :: topic in s.world.tables.topics ==>
        TopicKey(cfg, s'.world.tables, topic) == TopicKey(cfg, s.world.tables, topic);
    }
  }

  /**
   * NewClient for an ID that is registered already, with no new device put in the old one's place, is not
   * refused. It keeps agreement if and only if it fails, or the key is the stored half of the device's.
   */
  lemma NewClientAgreesIff(cfg: Config, s: System, input: Input)
    requires cfg.Usable() && cfg.lib.Sound() && Agree(cfg, s) && input.call.CallNewClient?
    requires var chosen := ValidateE4NameOrIDPair(cfg.lib, input.call.name, input.call.id);
      chosen.Some? ==> chosen.value in s.world.tables.clients && chosen.value in s.devices
    ensures var s' := System(Perform(cfg, s.world, input.call, input.faults).0, s.devices, s.drawn);
      Agree(cfg, s') <==>
        !Overwrites(cfg, s.world, input) ||
        input.call.key == cfg.lib.StoredHalf(cfg.pubKeyMode,
          s.devices[ValidateE4NameOrIDPair(cfg.lib, input.call.name, input.call.id).value].key)
  {
    hide LinksAgree, KeysKnown, Paired;
    var s' := System(Perform(cfg, s.world, input.call, input.faults).0, s.devices, s.drawn);
    CallKeepsStore(cfg, s.world, input.call, input.faults);
    if Overwrites(cfg, s.world, input) {
      var id := ValidateE4NameOrIDPair(cfg.lib, input.call.name, input.call.id).value;
      StoredKeyAgreesIff(cfg, s, s', id, input.call.key);
    } else {
      assert s'.world == s.world;
      MoreDrawnAgrees(cfg, s, s');
    }
  }
}
