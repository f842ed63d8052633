/**
 * What one service call comes to, for its caller: exactly when it is done, which error it reports, what has
 * changed then in the store and in which devices, and that nothing else has. The laws hold in every state
 * in which devices and store agree, under all faults.
 */
module Outcomes {
  import opened Wrappers
  import opened Pages
  import opened Crypto
  import opened Faults
  import opened Store
  import opened Model
  import opened Devices
  import opened Agreement
  import opened Boundaries

  /** One device obeyed one more command, this one, and no other device did anything. */
  ghost predicate OnlyHears(ds: map<Bytes, Device>, ds': map<Bytes, Device>, id: Bytes, cmd: Command) {
    && ds'.Keys == ds.Keys && id in ds
    && ds'[id].log == ds[id].log + [cmd]
    && forall other :: other in ds && other != id ==> ds'[other] == ds[other]
  }

  function StatusOf(cfg: Config, s: System, call: Call, f: Faults): Status
    requires cfg.Usable() && NamesUnique(s.world.tables)
  {
    Perform(cfg, s.world, call, f).1
  }

  lemma NothingSent(cfg: Config, s: System, call: Call, f: Faults)
    requires cfg.Usable() && NamesUnique(s.world.tables) && !call.CallNewClient? && !call.CallNewTopic?
    requires Perform(cfg, s.world, call, f).0.sent == s.world.sent
    ensures Advance(cfg, s, Input(call, f, [])).devices == s.devices
    ensures Advance(cfg, s, Input(call, f, [])).drawn == s.drawn
  {
    hide Perform;
  }

  // ---- Calls that send one command

  /** The common part: one message to a registered client, or an error and nothing. */
  lemma OneCommand(cfg: Config, s: System, id: Bytes, cmd: Command, f: Faults)
    requires cfg.lib.Sound() && Agree(cfg, s)
    ensures var r := SendOne(cfg, s.world, id, cmd, f);
      var done := id in s.world.tables.clients && !f(ReadTarget) && !f(Build) && !f(Publish(id));
      && (r.1 == Done <==> done)
      && (r.1 == ClientNotFound <==> id !in s.world.tables.clients && !f(ReadTarget))
      && (r.1 == Done || r.1 == ClientNotFound || r.1 == Internal)
      && (!done ==> r.0 == s.world)
      && (done ==>
            id in s.devices && Obeyed(s.devices, Deliver(cfg, s.devices, r.0.sent[|s.world.sent|..]), {id}, cmd))
  {
    hide Send, Deliver, Obeyed, LinksAgree, KeysKnown;
    if id in s.world.tables.clients {
      assert ClientAgrees(cfg, s, id);
      SendObeyed(cfg, s.world, cmd, Row(s.world.tables, id), f, s.devices);
    }
  }

  lemma HeardAlone(ds: map<Bytes, Device>, ds': map<Bytes, Device>, id: Bytes, cmd: Command)
    requires Obeyed(ds, ds', {id}, cmd) && id in ds
    ensures OnlyHears(ds, ds', id, cmd) && ds'[id] == Obey(ds[id], cmd)
  {
  }

  /** ResetClient empties the device of a registered client, for every topic, and no other. */
  lemma ResetClientOutcome(cfg: Config, s: System, id: Bytes, topic: string, f: Faults)
    requires cfg.Usable() && cfg.lib.Sound() && Agree(cfg, s)
    ensures var call := CallResetClient(id);
      var status, s' := StatusOf(cfg, s, call, f), Advance(cfg, s, Input(call, f, []));
      && (status == Done <==> id in s.world.tables.clients && !f(ReadTarget) && !f(Build) && !f(Publish(id)))
      && (status == ClientNotFound <==> id !in s.world.tables.clients && !f(ReadTarget))
      && s'.world == s.world.(sent := s'.world.sent)
      && (status == Done ==>
            && OnlyHears(s.devices, s'.devices, id, ResetTopics)
            && s'.devices[id].topicKeys == map[]
            && ResetAt(s'.devices[id].log, topic, |s'.devices[id].log| - 1))
      && (status != Done ==> s'.devices == s.devices)
  {
    hide SendOne, Deliver, Agree;
    AgreeingStore(cfg, s);
    OneCommand(cfg, s, id, ResetTopics, f);
    var s' := Advance(cfg, s, Input(CallResetClient(id), f, []));
    if StatusOf(cfg, s, CallResetClient(id), f) == Done {
      HeardAlone(s.devices, s'.devices, id, ResetTopics);
    } else {
      NothingSent(cfg, s, CallResetClient(id), f);
    }
  }

  lemma AgreeingStore(cfg: Config, s: System)
    requires Agree(cfg, s)
    ensures Consistent(cfg.lib, s.world.tables)
  {
  }

  /** The target's device is told the public half of the key in the source's device, under the source's name. */
  lemma SendClientPubKeyOutcome(cfg: Config, s: System, source: Bytes, target: Bytes, f: Faults)
    requires cfg.Usable() && cfg.lib.Sound() && Agree(cfg, s)
    ensures var call, t := CallSendClientPubKey(source, target), s.world.tables;
      var status, s' := StatusOf(cfg, s, call, f), Advance(cfg, s, Input(call, f, []));
      && (status == InvalidCryptoMode <==> !cfg.pubKeyMode)
      && (status == Done <==>
            && cfg.pubKeyMode && source in t.clients && target in t.clients
            && !f(ReadClient) && !f(ReadTarget) && !f(Build) && !f(Publish(target)))
      && (status == ClientNotFound <==>
            && cfg.pubKeyMode && !f(ReadClient)
            && (source !in t.clients || (!f(ReadTarget) && target !in t.clients)))
      && s'.world == s.world.(sent := s'.world.sent)
      && (status == Done ==>
            && source in s.devices
            && var half := cfg.lib.StoredHalf(cfg.pubKeyMode, s.devices[source].key);
               OnlyHears(s.devices, s'.devices, target, SetPubKey(half, t.clients[source].name)))
      && (status != Done ==> s'.devices == s.devices)
  {
    hide SendOne, Deliver, LinksAgree, KeysKnown;
    var call, t := CallSendClientPubKey(source, target), s.world.tables;
    var s' := Advance(cfg, s, Input(call, f, []));
    if source in t.clients {
      assert ClientAgrees(cfg, s, source);
      var cmd := SetPubKey(cfg.lib.StoredHalf(cfg.pubKeyMode, s.devices[source].key), t.clients[source].name);
      OneCommand(cfg, s, target, cmd, f);
      if StatusOf(cfg, s, call, f) == Done {
        HeardAlone(s.devices, s'.devices, target, cmd);
      }
    }
    if StatusOf(cfg, s, call, f) != Done {
      NothingSent(cfg, s, call, f);
    }
  }

  /** The target's device is told to forget the source's name. */
  lemma RemoveClientPubKeyOutcome(cfg: Config, s: System, source: Bytes, target: Bytes, f: Faults)
    requires cfg.Usable() && cfg.lib.Sound() && Agree(cfg, s)
    ensures var call, t := CallRemoveClientPubKey(source, target), s.world.tables;
      var status, s' := StatusOf(cfg, s, call, f), Advance(cfg, s, Input(call, f, []));
      && (status == InvalidCryptoMode <==> !cfg.pubKeyMode)
      && (status == Done <==>
            && cfg.pubKeyMode && source in t.clients && target in t.clients
            && !f(ReadClient) && !f(ReadTarget) && !f(Build) && !f(Publish(target)))
      && (status == ClientNotFound <==>
            && cfg.pubKeyMode && !f(ReadClient)
            && (source !in t.clients || (!f(ReadTarget) && target !in t.clients)))
      && s'.world == s.world.(sent := s'.world.sent)
      && (status == Done ==> OnlyHears(s.devices, s'.devices, target, RemovePubKey(t.clients[source].name)))
      && (status != Done ==> s'.devices == s.devices)
  {
    hide SendOne, Deliver, Agree;
    AgreeingStore(cfg, s);
    var call, t := CallRemoveClientPubKey(source, target), s.world.tables;
    var s' := Advance(cfg, s, Input(call, f, []));
    if source in t.clients {
      var cmd := RemovePubKey(t.clients[source].name);
      OneCommand(cfg, s, target, cmd, f);
      if StatusOf(cfg, s, call, f) == Done {
        HeardAlone(s.devices, s'.devices, target, cmd);
      }
    }
    if StatusOf(cfg, s, call, f) != Done {
      NothingSent(cfg, s, call, f);
    }
  }

  /** The target's device is told to forget all public keys. */
  lemma ResetClientPubKeysOutcome(cfg: Config, s: System, target: Bytes, f: Faults)
    requires cfg.Usable() && cfg.lib.Sound() && Agree(cfg, s)
    ensures var call, t := CallResetClientPubKeys(target), s.world.tables;
      var status, s' := StatusOf(cfg, s, call, f), Advance(cfg, s, Input(call, f, []));
      && (status == InvalidCryptoMode <==> !cfg.pubKeyMode)
      && (status == Done <==>
            cfg.pubKeyMode && target in t.clients && !f(ReadTarget) && !f(Build) && !f(Publish(target)))
      && (status == ClientNotFound <==> cfg.pubKeyMode && !f(ReadTarget) && target !in t.clients)
      && s'.world == s.world.(sent := s'.world.sent)
      && (status == Done ==> OnlyHears(s.devices, s'.devices, target, ResetPubKeys))
      && (status != Done ==> s'.devices == s.devices)
  {
    hide SendOne, Deliver, Agree;
    AgreeingStore(cfg, s);
    var call := CallResetClientPubKeys(target);
    OneCommand(cfg, s, target, ResetPubKeys, f);
    if StatusOf(cfg, s, call, f) == Done {
      HeardAlone(s.devices, Advance(cfg, s, Input(call, f, [])).devices, target, ResetPubKeys);
    } else {
      NothingSent(cfg, s, call, f);
    }
  }

  // ---- Linking clients to topics

  /** The device gets the topic's key, the join table the pair, and the listeners one event: all three if it is done. */
  lemma NewTopicClientOutcome(cfg: Config, s: System, id: Bytes, topic: string, f: Faults)
    requires cfg.Usable() && cfg.lib.Sound() && Agree(cfg, s)
    ensures var call, t := CallNewTopicClient(id, topic), s.world.tables;
      var status, s' := StatusOf(cfg, s, call, f), Advance(cfg, s, Input(call, f, []));
      var t' := s'.world.tables;
      && (status == ClientNotFound <==> !f(ReadClient) && id !in t.clients)
      && (status == TopicNotFound <==> !f(ReadClient) && id in t.clients && !f(ReadTopic) && topic !in t.topics)
      && (status == Done <==>
            && id in t.clients && topic in t.topics && !f(ReadClient) && !f(ReadTopic) && !f(Build)
            && !f(Publish(id)) && !f(Join) && !f(Commit))
      && t' == t.(links := t'.links)
      && (forall c, other ::
            (c, other) in t'.links <==> (c, other) in t.links || (status == Done && (c, other) == (id, topic)))
      && s'.world.events ==
           s.world.events + (if status == Done then [ClientSubscribed(t.clients[id].name, topic)] else [])
      && (status == Done ==>
            && TopicKey(cfg, t, topic).Some?
            && OnlyHears(s.devices, s'.devices, id, SetTopicKey(topic, TopicKey(cfg, t, topic).value))
            && s'.devices[id].topicKeys == s.devices[id].topicKeys[topic := TopicKey(cfg, t, topic).value])
  {
    hide Send, Deliver, LinksAgree;
    var call, t := CallNewTopicClient(id, topic), s.world.tables;
    var s' := Advance(cfg, s, Input(call, f, []));
    if id in t.clients && topic in t.topics {
      assert ClientAgrees(cfg, s, id);
      var cmd := LinkCommand(cfg, t, topic, true);
      SendObeyed(cfg, s.world, cmd, Row(t, id), f, s.devices);
      if StatusOf(cfg, s, call, f) == Done {
        HeardAlone(s.devices, s'.devices, id, cmd);
      }
    }
  }

  /** The same for unlinking. */
  lemma RemoveTopicClientOutcome(cfg: Config, s: System, id: Bytes, topic: string, f: Faults)
    requires cfg.Usable() && cfg.lib.Sound() && Agree(cfg, s)
    ensures var call, t := CallRemoveTopicClient(id, topic), s.world.tables;
      var status, s' := StatusOf(cfg, s, call, f), Advance(cfg, s, Input(call, f, []));
      var t' := s'.world.tables;
      && (status == ClientNotFound <==> !f(ReadClient) && id !in t.clients)
      && (status == TopicNotFound <==> !f(ReadClient) && id in t.clients && !f(ReadTopic) && topic !in t.topics)
      && (status == Done <==>
            && id in t.clients && topic in t.topics && !f(ReadClient) && !f(ReadTopic) && !f(Build)
            && !f(Publish(id)) && !f(Join) && !f(Recheck) && !f(Commit))
      && t' == t.(links := t'.links)
      && (forall c, other ::
            (c, other) in t'.links <==> (c, other) in t.links && !(status == Done && (c, other) == (id, topic)))
      && s'.world.events ==
           s.world.events + (if status == Done then [ClientUnsubscribed(t.clients[id].name, topic)] else [])
      && (status == Done ==>
            && OnlyHears(s.devices, s'.devices, id, Command.RemoveTopic(topic))
            && s'.devices[id].topicKeys == s.devices[id].topicKeys - {topic})
  {
    hide Send, Deliver, LinksAgree, KeysKnown;
    var call, t := CallRemoveTopicClient(id, topic), s.world.tables;
    var s' := Advance(cfg, s, Input(call, f, []));
    if id in t.clients && topic in t.topics {
      assert ClientAgrees(cfg, s, id);
      var cmd := Command.RemoveTopic(topic);
      SendObeyed(cfg, s.world, cmd, Row(t, id), f, s.devices);
      if StatusOf(cfg, s, call, f) == Done {
        HeardAlone(s.devices, s'.devices, id, cmd);
      }
    }
  }

  // ---- Registering and removing

  /** A registration that is done can be looked up and its key read back; nothing else in the store changes. */
  lemma NewClientOutcome(cfg: Config, w: World, name: string, id: Bytes, key: Bytes, f: Faults)
    requires cfg.lib.DecryptsOwn() && Consistent(cfg.lib, w.tables)
    ensures var r := NewClient(cfg, w, name, id, key, f);
      var chosen, t, t' := ValidateE4NameOrIDPair(cfg.lib, name, id), w.tables, r.0.tables;
      && (r.1 == Validation <==> chosen.None? || !cfg.lib.ValidKey(cfg.pubKeyMode, key))
      && (r.1 == Done <==>
            && chosen.Some? && cfg.lib.ValidKey(cfg.pubKeyMode, key) && !f(Encrypt) && !f(WriteRow)
            && if chosen.value in t.clients then !f(Lookup)
               else forall other :: other in t.clients ==> t.clients[other].name != name)
      && (r.1 != Done ==> r.0 == w)
      && (r.1 == Done ==>
            && r.0 == w.(tables := t.(clients := t'.clients)) && t'.clients.Keys == t.clients.Keys + {chosen.value}
            && (forall other :: other in t.clients && other != chosen.value ==> t'.clients[other] == t.clients[other])
            && var found := FindClient(t', chosen.value, false);
               && found.Ok? && cfg.lib.decrypt(cfg.dbKey, found.value.key) == Some(key)
               && found.value.name == if chosen.value in t.clients then t.clients[chosen.value].name else name)
  {
    assert cfg.lib.decrypt(cfg.dbKey, cfg.lib.encrypt(cfg.dbKey, key)) == Some(key);
  }

  /** A removed client cannot be found, listed or linked any more, and everything about the others stays. */
  lemma RemoveClientOutcome(cfg: Config, w: World, id: Bytes, f: Faults)
    requires Consistent(cfg.lib, w.tables)
    ensures var r := RemoveClient(cfg, w, id, f);
      var t, t' := w.tables, r.0.tables;
      && (r.1 == Done <==> id in t.clients && !f(Lookup) && !f(Clear) && !f(DeleteRow) && !f(Commit))
      && (r.1 == ClientNotFound <==> id !in t.clients && !f(Lookup))
      && (r.1 != Done ==> r.0 == w)
      && (r.1 == Done ==>
            && r.0 == w.(tables := t') && FindClient(t', id, false) == Err(ClientNotFound)
            && t'.topics == t.topics && t'.clients.Keys == t.clients.Keys - {id}
            && (forall other :: other in t'.clients ==> t'.clients[other] == t.clients[other])
            && (forall c, topic :: (c, topic) in t'.links <==> (c, topic) in t.links && c != id)
            && (forall c, p :: (c, p) in t'.peers <==> (c, p) in t.peers && c != id && p != id))
  {
  }

  /** A removed topic cannot be found or linked any more, and is not monitored unless the broker failed. */
  lemma RemoveTopicOutcome(cfg: Config, w: World, topic: string, f: Faults)
    requires Consistent(cfg.lib, w.tables)
    ensures var r := Model.RemoveTopic(cfg, w, topic, f);
      var t, t' := w.tables, r.0.tables;
      && (r.1 == Done <==> topic in t.topics && !f(Lookup) && !f(Clear) && !f(DeleteRow) && !f(Commit))
      && (r.1 == TopicNotFound <==> topic !in t.topics && !f(Lookup))
      && (r.1 != Done ==> t' == t)
      && (forall other :: other in r.0.monitored <==> other in w.monitored && (other != topic || f(Unsubscribe)))
      && r.0 == w.(tables := t', monitored := r.0.monitored)
      && (r.1 == Done ==>
            && FindTopic(t', topic, false) == Err(TopicNotFound)
            && t'.clients == t.clients && t'.peers == t.peers && t'.topics.Keys == t.topics.Keys - {topic}
            && (forall other :: other in t'.topics ==> t'.topics[other] == t.topics[other])
            && (forall c, other :: (c, other) in t'.links <==> (c, other) in t.links && other != topic))
  {
  }

  /** A topic that is done is monitored; no other topic, client or link changes. */
  lemma NewTopicOutcome(cfg: Config, w: World, topic: string, key: Bytes, f: Faults)
    requires cfg.Usable() && Consistent(cfg.lib, w.tables) && cfg.lib.DecryptsOwn()
    ensures var r := NewTopic(cfg, w, topic, key, f);
      var t, t' := w.tables, r.0.tables;
      && (r.1 == InvalidTopic <==> !cfg.validTopic(topic))
      && (r.1 == Done <==>
            && cfg.validTopic(topic) && !f(Encrypt) && !f(BeginTx) && !f(WriteRow) && (topic in t.topics ==> !f(Lookup))
            && !f(Build) && !f(CountRows) && !f(CommitTx) && !f(Subscribe))
      && (forall other :: other in r.0.monitored <==> other in w.monitored || (r.1 == Done && other == topic))
      && t'.clients == t.clients && t'.links == t.links && t'.peers == t.peers
      && r.0.events == w.events && r.0.c2Secret == w.c2Secret
      && (forall other :: other != topic ==>
            (other in t'.topics <==> other in t.topics) && (other in t.topics ==> t'.topics[other] == t.topics[other]))
      && (r.1 == Done ==> topic in t'.topics && cfg.lib.decrypt(cfg.dbKey, t'.topics[topic]) == Some(key))
  {
    hide SendAll, TopicTargets;
    assert cfg.lib.decrypt(cfg.dbKey, cfg.lib.encrypt(cfg.dbKey, key)) == Some(key);
  }

  // ---- Clients linked to clients

  /** A client is in the list of clients linked to another. */
  ghost predicate ListedFor(t: Tables, id: Bytes, owner: Bytes)
    requires NamesUnique(t)
  {
    id in t.clients && Row(t, id) in LinkedClients(t, owner)
  }

  lemma ListedIff(t: Tables, id: Bytes, owner: Bytes)
    requires NamesUnique(t)
    ensures ListedFor(t, id, owner) <==> id in t.clients && (owner, id) in t.peers
  {
    ListingRows(t, PeersOf(t, owner));
  }

  lemma AllListedIff(t: Tables)
    requires NamesUnique(t)
    ensures forall id, owner :: ListedFor(t, id, owner) <==> id in t.clients && (owner, id) in t.peers
  {
    forall id, owner ensures ListedFor(t, id, owner) <==> id in t.clients && (owner, id) in t.peers {
      ListedIff(t, id, owner);
    }
  }

  /** LinkClient puts the source into the target's list; no other entry of any list changes. */
  lemma LinkClientOutcome(cfg: Config, w: World, source: Bytes, target: Bytes, f: Faults)
    requires Consistent(cfg.lib, w.tables)
    ensures var r := Model.LinkClient(cfg, w, source, target, f);
      var t, t' := w.tables, r.0.tables;
      && (r.1 == Done <==>
            source in t.clients && target in t.clients && !f(ReadClient) && !f(ReadTarget) && !f(Join))
      && (r.1 == ClientNotFound <==>
            !f(ReadClient) && (source !in t.clients || (!f(ReadTarget) && target !in t.clients)))
      && (r.1 != Done ==> r.0 == w)
      && r.0 == w.(tables := t.(peers := t'.peers))
      && (r.1 == Done ==> ListedFor(t', source, target))
      && (forall id, owner ::
            (id, owner) != (source, target) ==> (ListedFor(t', id, owner) <==> ListedFor(t, id, owner)))
  {
    hide ListedFor;
    AllListedIff(w.tables);
    AllListedIff(Model.LinkClient(cfg, w, source, target, f).0.tables);
  }

  /** UnlinkClient takes exactly that entry away. */
  lemma UnlinkClientOutcome(cfg: Config, w: World, source: Bytes, target: Bytes, f: Faults)
    requires Consistent(cfg.lib, w.tables)
    ensures var r := Model.UnlinkClient(cfg, w, source, target, f);
      var t, t' := w.tables, r.0.tables;
      && (r.1 == Done <==>
            source in t.clients && target in t.clients && !f(ReadClient) && !f(ReadTarget) && !f(Join))
      && (r.1 == ClientNotFound <==>
            !f(ReadClient) && (source !in t.clients || (!f(ReadTarget) && target !in t.clients)))
      && (r.1 != Done ==> r.0 == w)
      && r.0 == w.(tables := t.(peers := t'.peers))
      && (r.1 == Done ==> !ListedFor(t', source, target))
      && (forall id, owner ::
            (id, owner) != (source, target) ==> (ListedFor(t', id, owner) <==> ListedFor(t, id, owner)))
  {
    hide ListedFor;
    AllListedIff(w.tables);
    AllListedIff(Model.UnlinkClient(cfg, w, source, target, f).0.tables);
  }

  // ---- New client keys

  ghost predicate NothingFails(f: Faults) {
    forall step :: !f(step)
  }

  /** Which failures stop NewClientKey where, and what is in the store and on the device then. */
  lemma NewClientKeyOutcome(cfg: Config, s: System, id: Bytes, key: Bytes, f: Faults)
    requires cfg.Usable() && cfg.lib.Sound() && Agree(cfg, s)
    ensures var input, t := Input(CallNewClientKey(id, key), f, []), s.world.tables;
      var status, s' := StatusOf(cfg, s, input.call, f), Advance(cfg, s, input);
      var t', stored := s'.world.tables, KeySent(s.world, input) && !KeyUnrecorded(input);
      && (status == ClientNotFound <==> !f(ReadClient) && id !in t.clients)
      && (status == Done <==> stored && (cfg.sendPubKey && cfg.pubKeyMode ==> !f(BuildPubKey) && !f(CountRows)))
      && t' == t.(clients := t'.clients) && t'.clients.Keys == t.clients.Keys
      && (forall other :: other in t.clients && !(stored && other == id) ==> t'.clients[other] == t.clients[other])
      && (stored ==>
            && t'.clients[id].name == t.clients[id].name
            && cfg.lib.decrypt(cfg.dbKey, t'.clients[id].key) == Some(cfg.lib.StoredHalf(cfg.pubKeyMode, key)))
      && (!KeySent(s.world, input) ==> s'.world == s.world && s'.devices == s.devices)
      && (KeySent(s.world, input) && !stored ==> OnlyHears(s.devices, s'.devices, id, SetIDKey(key)))
  {
    hide Perform, Send, Deliver, Obeyed, LinksAgree, KeysKnown;
    var input := Input(CallNewClientKey(id, key), f, []);
    AgreeingStore(cfg, s);
    if !KeySent(s.world, input) {
      UnsentKeyChangesNothing(cfg, s.world, input);
      NothingSent(cfg, s, input.call, f);
      UnsentKeyStatus(cfg, s, input);
    } else {
      assert ClientAgrees(cfg, s, id);
      SendObeyed(cfg, s.world, SetIDKey(key), Row(s.world.tables, id), f, s.devices);
      SentKeyShape(cfg, s.world, input);
      if KeyUnrecorded(input) {
        UnrecordedKeyFacts(cfg, s, input);
        HeardAlone(s.devices, Advance(cfg, s, input).devices, id, SetIDKey(key));
      }
    }
  }

  /** Once the key is sent: what is stored, and how the call ends. */
  lemma SentKeyShape(cfg: Config, w: World, input: Input)
    requires cfg.Usable() && Consistent(cfg.lib, w.tables) && input.call.CallNewClientKey? && KeySent(w, input)
    requires Send(cfg, w, SetIDKey(input.call.key), Row(w.tables, input.call.id), input.faults).Some?
    ensures var r, f := Perform(cfg, w, input.call, input.faults), input.faults;
      && r.0.tables ==
           (if KeyUnrecorded(input) then w.tables else Rekeyed(cfg, w.tables, input.call.id, input.call.key))
      && r.1 != ClientNotFound
      && (r.1 == Done <==>
            !KeyUnrecorded(input) && (cfg.sendPubKey && cfg.pubKeyMode ==> !f(BuildPubKey) && !f(CountRows)))
  {
    hide Send, SendAll, FanOut, LinkedClients, InsertClient;
    var row := cfg.lib.encrypt(cfg.dbKey, cfg.lib.StoredHalf(cfg.pubKeyMode, input.call.key));
    RekeyPassesNameCheck(cfg.lib, w.tables, input.call.id, row, input.faults);
  }

  lemma UnsentKeyStatus(cfg: Config, s: System, input: Input)
    requires cfg.Usable() && cfg.lib.Sound() && Agree(cfg, s)
    requires input.call.CallNewClientKey? && !KeySent(s.world, input)
    ensures var status, f := StatusOf(cfg, s, input.call, input.faults), input.faults;
      status != Done && (status == ClientNotFound <==> !f(ReadClient) && input.call.id !in s.world.tables.clients)
  {
    hide SendAll, FanOut;
  }

  /** The command a client's new public key is announced with. */
  function Announcement(cfg: Config, t: Tables, id: Bytes, key: Bytes): Command
    requires id in t.clients
  {
    SetPubKey(cfg.lib.StoredHalf(cfg.pubKeyMode, key), t.clients[id].name)
  }

  /**
   * When nothing fails, a new client key is heard by its own device, and its public half by exactly the
   * clients in its list, once each.
   */
  lemma ListedClientsHearNewKeys(cfg: Config, s: System, id: Bytes, key: Bytes, f: Faults)
    requires cfg.Usable() && cfg.lib.Sound() && Agree(cfg, s) && NothingFails(f)
    requires cfg.sendPubKey && cfg.pubKeyMode && id in s.world.tables.clients
    requires cfg.lib.ValidKey(cfg.pubKeyMode, cfg.lib.StoredHalf(cfg.pubKeyMode, key))
    ensures var call, t := CallNewClientKey(id, key), s.world.tables;
      var s' := Advance(cfg, s, Input(call, f, []));
      && StatusOf(cfg, s, call, f) == Done && s'.devices.Keys == s.devices.Keys
      && forall other :: other in s.devices ==>
           s'.devices[other].log == s.devices[other].log
                                      + (if other == id then [SetIDKey(key)] else [])
                                      + (if ListedFor(t, other, id) then [Announcement(cfg, t, id, key)] else [])
  {
    hide Deliver, SendAll, FanOut, LinksAgree, KeysKnown, ListedFor, Obeyed, Paired, Perform, Rekeyed, LinkedClients,
         Reached, AreRows, DistinctIds, NothingFails;
    var call, t, input := CallNewClientKey(id, key), s.world.tables, Input(CallNewClientKey(id, key), f, []);
    assert KeySent(s.world, input) && !KeyUnrecorded(input) && !f(BuildPubKey) && !f(CountRows) && !f(Publish(id)) by {
      NothingFailsAt(f);
    }
    NewClientKeyOutcome(cfg, s, id, key, f);
    assert ClientAgrees(cfg, s, id);
    SendObeyed(cfg, s.world, SetIDKey(key), Row(t, id), f, s.devices);
    var mid := RekeySent(cfg, s, id, key, f);
    KeyCallIsFanOut(cfg, s.world, mid.world, id, key, f);
    ListedTargets(cfg, mid, id, f);
    SameLists(t, mid.world.tables, id);
    var targets := FanOut(LinkedClients(mid.world.tables, id), cfg.linkedBatch, f);
    FanOutReaches(cfg, mid.world, Announcement(cfg, t, id, key), targets, f, s.devices, |s.world.sent|);
    HeardTwice(s.devices, mid.devices, Advance(cfg, s, input).devices, id, SetIDKey(key),
               Reached(targets, f), Announcement(cfg, t, id, key));
  }

  /** One device obeys a command, then some obey another. */
  lemma HeardTwice(ds: map<Bytes, Device>, mid: map<Bytes, Device>, ds': map<Bytes, Device>, id: Bytes, first: Command,
                   reached: set<Bytes>, second: Command)
    requires Obeyed(ds, mid, {id}, first) && ds'.Keys == ds.Keys
    requires forall other :: other in ds ==>
      ds'[other] == if other in reached then Obey(mid[other], second) else mid[other]
    ensures forall other :: other in ds ==>
      ds'[other].log ==
        ds[other].log + (if other == id then [first] else []) + (if other in reached then [second] else [])
  {
  }

  lemma KeyCallIsFanOut(cfg: Config, w: World, mid: World, id: Bytes, key: Bytes, f: Faults)
    requires cfg.Usable() && Consistent(cfg.lib, w.tables) && NothingFails(f) && id in w.tables.clients
    requires cfg.sendPubKey && cfg.pubKeyMode
    requires Send(cfg, w, SetIDKey(key), Row(w.tables, id), f).Some? && NamesUnique(mid.tables)
    requires mid == Send(cfg, w, SetIDKey(key), Row(w.tables, id), f).value.(tables := Rekeyed(cfg, w.tables, id, key))
    ensures var targets := FanOut(LinkedClients(mid.tables, id), cfg.linkedBatch, f);
      Perform(cfg, w, CallNewClientKey(id, key), f).0
      == SendAll(cfg, mid, Announcement(cfg, w.tables, id, key), targets, f)
  {
    hide Send, SendAll, FanOut, InsertClient, LinkedClients, NothingFails, RowsNamed, LinksLive;
    assert !f(ReadClient) && !f(NewKey) && !f(Build) && !f(Encrypt) && !f(Lookup) && !f(WriteRow) by {
      NothingFailsAt(f);
    }
    assert !f(BuildPubKey) && !f(CountRows) by {
      NothingFailsAt(f);
    }
    var row := cfg.lib.encrypt(cfg.dbKey, cfg.lib.StoredHalf(cfg.pubKeyMode, key));
    RekeyPassesNameCheck(cfg.lib, w.tables, id, row, f);
  }

  lemma NothingFailsAt(f: Faults)
    requires NothingFails(f)
    ensures forall step :: !f(step)
  {
  }

  /** Nothing failing, the fan-out reaches exactly the list, and each in it is paired with its device. */
  lemma ListedTargets(cfg: Config, s: System, id: Bytes, f: Faults)
    requires cfg.Usable() && Agree(cfg, s) && NothingFails(f)
    ensures var targets := FanOut(LinkedClients(s.world.tables, id), cfg.linkedBatch, f);
      && AreRows(s.world.tables, targets) && DistinctIds(targets)
      && (forall c :: c in targets ==> c.id in s.devices && Paired(cfg, s.world.c2Secret, s.devices[c.id], c.key))
      && forall other :: other in Reached(targets, f) <==> ListedFor(s.world.tables, other, id)
  {
    hide LinksAgree, KeysKnown;
    var t := s.world.tables;
    var all := LinkedClients(t, id);
    ListingRows(t, PeersOf(t, id));
    SelectedRows(t, all, Readable(f, cfg.linkedBatch));
    forall i: nat | i < |all| ensures Readable(f, cfg.linkedBatch)(i) {
      assert !f(ReadPage(PageStart(i, cfg.linkedBatch)));
    }
    SelectAll(all, Readable(f, cfg.linkedBatch));
    assert !f(CountLost);
    AgreeingTargetsArePaired(cfg, s, all);
    ReachedRows(t, all, f);
    forall other ensures other in Reached(all, f) <==> ListedFor(t, other, id) {
      assert !f(Publish(other));
    }
  }

  /** Lists go by IDs and names, not by keys. */
  lemma SameLists(t: Tables, t': Tables, owner: Bytes)
    requires NamesUnique(t) && NamesUnique(t') && t'.clients.Keys == t.clients.Keys && t'.peers == t.peers
    ensures forall id :: ListedFor(t', id, owner) <==> ListedFor(t, id, owner)
  {
    hide ListedFor;
    AllListedIff(t);
    AllListedIff(t');
  }

  /**
   * LinkClient is for this: from the call on, the source's device is told each new public key of the target;
   * from UnlinkClient on, it is not.
   */
  lemma LinkedSourcesHearNewKeys(cfg: Config, s: System, source: Bytes, target: Bytes, key: Bytes, link: bool,
                                 f: Faults)
    requires cfg.Usable() && cfg.lib.Sound() && Agree(cfg, s) && NothingFails(f) && cfg.sendPubKey && cfg.pubKeyMode
    requires source in s.world.tables.clients && target in s.world.tables.clients && source != target
    requires cfg.lib.ValidKey(cfg.pubKeyMode, cfg.lib.StoredHalf(cfg.pubKeyMode, key))
    ensures var call := if link then CallLinkClient(source, target) else CallUnlinkClient(source, target);
      var s1 := Advance(cfg, s, Input(call, f, []));
      && StatusOf(cfg, s, call, f) == Done && NamesUnique(s1.world.tables)
      && var rekey := CallNewClientKey(target, key);
         var s2 := Advance(cfg, s1, Input(rekey, f, []));
         && StatusOf(cfg, s1, rekey, f) == Done && source in s.devices && source in s2.devices
         && s2.devices[source].log ==
              s.devices[source].log + if link then [Announcement(cfg, s.world.tables, target, key)] else []
  {
    hide Deliver, ListedFor, NewClientKey, Agree;
    AgreeingStore(cfg, s);
    var call := if link then CallLinkClient(source, target) else CallUnlinkClient(source, target);
    var input := Input(call, f, []);
    var s1 := Advance(cfg, s, input);
    LinkClientOutcome(cfg, s.world, source, target, f);
    UnlinkClientOutcome(cfg, s.world, source, target, f);
    CallKeepsAgreement(cfg, s, input);
    AgreeingStore(cfg, s1);
    NothingSent(cfg, s, call, f);
    HasDevice(cfg, s, source);
    ListedClientsHearNewKeys(cfg, s1, target, key, f);
  }

  lemma HasDevice(cfg: Config, s: System, id: Bytes)
    requires Agree(cfg, s) && id in s.world.tables.clients
    ensures id in s.devices
  {
    assert ClientAgrees(cfg, s, id);
  }

  // ---- The C2 key

  /** A rotation that is done has put the new key in force; the devices it informed obeyed, and no device else. */
  lemma NewC2KeyOutcome(cfg: Config, s: System, key: Bytes, f: Faults, backed: bool, committed: bool)
    requires cfg.Usable() && cfg.lib.Sound() && Agree(cfg, s)
    ensures var input := Input(CallNewC2Key(key, backed, committed), f, []);
      var status, s' := StatusOf(cfg, s, input.call, f), Advance(cfg, s, input);
      && (status == InvalidCryptoMode <==> !cfg.pubKeyMode)
      && (status == Done <==> cfg.pubKeyMode && backed && !f(Build) && committed)
      && s'.world == s.world.(sent := s'.world.sent, c2Secret := if status == Done then key else s.world.c2Secret)
      && if RotationBegins(cfg, input)
         then Obeyed(s.devices, s'.devices, Informed(cfg, s, input), SetC2Key(cfg.lib.C2Public(key)))
         else s'.devices == s.devices
  {
    hide SendAll, C2Targets, AllClients, Informed, Deliver, Obeyed, ClientsAgree, LinksAgree, KeysKnown;
    var input := Input(CallNewC2Key(key, backed, committed), f, []);
    if RotationBegins(cfg, input) {
      RotationFacts(cfg, s, input);
    } else {
      NothingSent(cfg, s, input.call, f);
    }
  }

  // ---- Messages

  /**
   * Server and linked devices read each other: the server accepts exactly the messages that open under
   * the key in the device, with the clear text the device would read, and what it protects opens there.
   */
  lemma DeviceAndServerShareMessages(cfg: Config, s: System, id: Bytes, topic: string, data: Bytes, f: Faults)
    requires cfg.lib.Sound() && Agree(cfg, s) && id in s.world.tables.clients && topic in s.world.tables.topics
    requires (id, topic) in s.world.tables.links && id in s.devices && !ResetSince(s.devices[id].log, topic)
    ensures topic in s.devices[id].topicKeys
    ensures var key := s.devices[id].topicKeys[topic];
      var clear, sealed := UnprotectMessage(cfg, s.world, topic, data, f), ProtectMessage(cfg, s.world, topic, data, f);
      && (clear.Ok? <==> !f(ReadTopic) && cfg.lib.unprotect(key, data).Some?)
      && (clear.Ok? ==> cfg.lib.unprotect(key, data) == Some(clear.value))
      && (sealed.Ok? <==> !f(ReadTopic) && !f(Encrypt))
      && (sealed.Ok? ==> cfg.lib.unprotect(key, sealed.value) == Some(data))
  {
    assert KeyAgrees(s.devices[id], topic, true, TopicKey(cfg, s.world.tables, topic));
    assert TopicKey(cfg, s.world.tables, topic).Some?;
  }
}
