/** What the dispatched subscribe and unsubscribe events say about the client-topic links. */
module EventLog {
  import opened Crypto
  import opened Faults
  import opened Store
  import opened Model

  function Apply(relation: set<(string, string)>, e: Event): set<(string, string)> {
    match e
    case ClientSubscribed(client, topic) => relation + {(client, topic)}
    case ClientUnsubscribed(client, topic) => relation - {(client, topic)}
  }

  /** The relation a listener ends up with: names and topics, by the last event about each pair. */
  function Replay(events: seq<Event>): set<(string, string)> {
    if events == [] then {} else Apply(Replay(events[..|events| - 1]), events[|events| - 1])
  }

  lemma ReplayOne(events: seq<Event>, e: Event)
    ensures Replay(events + [e]) == Apply(Replay(events), e)
  {
    assert (events + [e])[..|events|] == events;
  }

  /** The server's state, and the names of clients and topics that were ever removed. */
  datatype Watched = Watched(world: World, goneClients: set<string>, goneTopics: set<string>)

  function Watch(cfg: Config, s: Watched, call: Call, f: Faults): Watched
    requires cfg.Usable() && NamesUnique(s.world.tables)
  {
    var r := Perform(cfg, s.world, call, f);
    Watched(r.0,
            s.goneClients + (if call.CallRemoveClient? && r.1.Done? && call.id in s.world.tables.clients
                             then {s.world.tables.clients[call.id].name} else {}),
            s.goneTopics + (if call.CallRemoveTopic? && r.1.Done? then {call.topic} else {}))
  }

  ghost predicate Linked(t: Tables, name: string, topic: string) {
    exists id :: id in t.clients && t.clients[id].name == name && (id, topic) in t.links
  }

  /** Every link was announced and not taken back. */
  ghost predicate LinksAnnounced(w: World) {
    forall id, topic :: (id, topic) in w.tables.links && id in w.tables.clients ==>
      (w.tables.clients[id].name, topic) in Replay(w.events)
  }

  /** Everything announced and not taken back is linked, unless its client or topic was removed. */
  ghost predicate AnnouncedLinks(s: Watched) {
    forall name, topic ::
      (name, topic) in Replay(s.world.events) && name !in s.goneClients && topic !in s.goneTopics ==>
      Linked(s.world.tables, name, topic)
  }

  ghost predicate Faithful(cfg: Config, s: Watched) {
    Consistent(cfg.lib, s.world.tables) && LinksAnnounced(s.world) && AnnouncedLinks(s)
  }

  /** Same events, same links, and every client keeps its name. */
  ghost predicate SameLinks(w: World, w': World) {
    && w'.events == w.events && w'.tables.links == w.tables.links
    && forall id :: id in w.tables.clients ==>
         id in w'.tables.clients && w'.tables.clients[id].name == w.tables.clients[id].name
  }

  lemma SameLinksFaithful(cfg: Config, s: Watched, s': Watched)
    requires Faithful(cfg, s) && SameLinks(s.world, s'.world) && Consistent(cfg.lib, s'.world.tables)
    requires s.goneClients <= s'.goneClients && s.goneTopics <= s'.goneTopics
    ensures Faithful(cfg, s')
  {
    forall name, topic | (name, topic) in Replay(s'.world.events) && name !in s'.goneClients && topic !in s'.goneTopics
      ensures Linked(s'.world.tables, name, topic) {
      assert Linked(s.world.tables, name, topic);
      var t := s.world.tables;
      var id :| id in t.clients && t.clients[id].name == name && (id, topic) in t.links;
      assert id in s'.world.tables.clients;
    }
  }

  predicate TouchesLinks(call: Call) {
    call.CallNewTopicClient? || call.CallRemoveTopicClient? || call.CallRemoveClient? || call.CallRemoveTopic?
  }

  lemma OtherCallsKeepLinks(cfg: Config, w: World, call: Call, f: Faults)
    requires cfg.Usable() && NamesUnique(w.tables) && !TouchesLinks(call)
    ensures SameLinks(w, Perform(cfg, w, call, f).0)
  {
  }

  /** A subscription is announced exactly when it is recorded. */
  lemma LinkedFaithful(cfg: Config, s: Watched, s': Watched, id: Bytes, topic: string)
    requires Faithful(cfg, s) && Consistent(cfg.lib, s'.world.tables)
    requires id in s.world.tables.clients
    requires s'.world.tables == s.world.tables.(links := s.world.tables.links + {(id, topic)})
    requires s'.world.events == s.world.events + [ClientSubscribed(s.world.tables.clients[id].name, topic)]
    requires s'.goneClients == s.goneClients && s'.goneTopics == s.goneTopics
    ensures Faithful(cfg, s')
  {
    var t, t' := s.world.tables, s'.world.tables;
    ReplayOne(s.world.events, ClientSubscribed(t.clients[id].name, topic));
    assert (id, topic) in t'.links;
    forall name, other | (name, other) in Replay(s'.world.events) && name !in s'.goneClients && other !in s'.goneTopics
      ensures Linked(t', name, other) {
      if (name, other) != (t.clients[id].name, topic) {
        assert Linked(t, name, other);
        var c :| c in t.clients && t.clients[c].name == name && (c, other) in t.links;
        assert (c, other) in t'.links;
      }
    }
  }

  lemma UnlinkedFaithful(cfg: Config, s: Watched, s': Watched, id: Bytes, topic: string)
    requires Faithful(cfg, s) && Consistent(cfg.lib, s'.world.tables)
    requires id in s.world.tables.clients
    requires s'.world.tables == s.world.tables.(links := s.world.tables.links - {(id, topic)})
    requires s'.world.events == s.world.events + [ClientUnsubscribed(s.world.tables.clients[id].name, topic)]
    requires s'.goneClients == s.goneClients && s'.goneTopics == s.goneTopics
    ensures Faithful(cfg, s')
  {
    var t, t' := s.world.tables, s'.world.tables;
    ReplayOne(s.world.events, ClientUnsubscribed(t.clients[id].name, topic));
    forall c, other | (c, other) in t'.links && c in t'.clients
      ensures (t'.clients[c].name, other) in Replay(s'.world.events) {
      assert (c, other) in t.links;
      assert t.clients[c].name == t.clients[id].name ==> c == id;
    }
    forall name, other | (name, other) in Replay(s'.world.events) && name !in s'.goneClients && other !in s'.goneTopics
      ensures Linked(t', name, other) {
      assert Linked(t, name, other);
      var c :| c in t.clients && t.clients[c].name == name && (c, other) in t.links;
      assert (c, other) in t'.links;
    }
  }

  /** Rows go, with their links; the events stay as they are. */
  lemma RemovedFaithful(cfg: Config, s: Watched, s': Watched)
    requires Faithful(cfg, s) && Consistent(cfg.lib, s'.world.tables) && s'.world.events == s.world.events
    requires s'.world.tables.links <= s.world.tables.links
    requires forall id :: id in s'.world.tables.clients ==>
      id in s.world.tables.clients && s'.world.tables.clients[id] == s.world.tables.clients[id]
    requires s.goneClients <= s'.goneClients && s.goneTopics <= s'.goneTopics
    requires forall id, topic ::
      (id, topic) in s.world.tables.links - s'.world.tables.links && id in s.world.tables.clients ==>
      s.world.tables.clients[id].name in s'.goneClients || topic in s'.goneTopics
    requires forall id :: id in s.world.tables.clients && id !in s'.world.tables.clients ==>
      s.world.tables.clients[id].name in s'.goneClients
    ensures Faithful(cfg, s')
  {
    var t, t' := s.world.tables, s'.world.tables;
    forall name, topic | (name, topic) in Replay(s'.world.events) && name !in s'.goneClients && topic !in s'.goneTopics
      ensures Linked(t', name, topic) {
      assert Linked(t, name, topic);
      var id :| id in t.clients && t.clients[id].name == name && (id, topic) in t.links;
      assert id in t'.clients && (id, topic) in t'.links;
    }
  }

  lemma LinkCallsFaithful(cfg: Config, s: Watched, call: Call, f: Faults)
    requires cfg.Usable() && Faithful(cfg, s) && (call.CallNewTopicClient? || call.CallRemoveTopicClient?)
    ensures Faithful(cfg, Watch(cfg, s, call, f))
  {
    CallKeepsStore(cfg, s.world, call, f);
    var s' := Watch(cfg, s, call, f);
    if s'.world.events == s.world.events {
      SameLinksFaithful(cfg, s, s');
    } else if call.CallNewTopicClient? {
      LinkedFaithful(cfg, s, s', call.id, call.topic);
    } else {
      UnlinkedFaithful(cfg, s, s', call.id, call.topic);
    }
  }

  lemma RemovalCallsFaithful(cfg: Config, s: Watched, call: Call, f: Faults)
    requires cfg.Usable() && Faithful(cfg, s) && (call.CallRemoveClient? || call.CallRemoveTopic?)
    ensures Faithful(cfg, Watch(cfg, s, call, f))
  {
    CallKeepsStore(cfg, s.world, call, f);
    RemovedFaithful(cfg, s, Watch(cfg, s, call, f));
  }

  /** Whatever fails, a call keeps the events faithful to the links. */
  lemma CallKeepsEventsFaithful(cfg: Config, s: Watched, call: Call, f: Faults)
    requires cfg.Usable() && Faithful(cfg, s)
    ensures Faithful(cfg, Watch(cfg, s, call, f))
  {
    if !TouchesLinks(call) {
      CallKeepsStore(cfg, s.world, call, f);
      OtherCallsKeepLinks(cfg, s.world, call, f);
      SameLinksFaithful(cfg, s, Watch(cfg, s, call, f));
    } else if call.CallNewTopicClient? || call.CallRemoveTopicClient? {
      LinkCallsFaithful(cfg, s, call, f);
    } else {
      RemovalCallsFaithful(cfg, s, call, f);
    }
  }

  ghost function WatchAll(cfg: Config, s: Watched, calls: seq<(Call, Faults)>): (r: Watched)
    requires cfg.Usable() && Consistent(cfg.lib, s.world.tables)
    ensures Consistent(cfg.lib, r.world.tables)
  {
    if calls == [] then s
    else
      var before, last := WatchAll(cfg, s, calls[..|calls| - 1]), calls[|calls| - 1];
      CallKeepsStore(cfg, before.world, last.0, last.1);
      Watch(cfg, before, last.0, last.1)
  }

  lemma {:induction false} RunsFaithful(cfg: Config, s: Watched, calls: seq<(Call, Faults)>)
    requires cfg.Usable() && Faithful(cfg, s)
    ensures Faithful(cfg, WatchAll(cfg, s, calls))
  {
    if calls != [] {
      RunsFaithful(cfg, s, calls[..|calls| - 1]);
      CallKeepsEventsFaithful(cfg, WatchAll(cfg, s, calls[..|calls| - 1]), calls[|calls| - 1].0, calls[|calls| - 1].1);
    }
  }

  /**
   * Over every run from the empty server, under every pattern of failures: what a listener replays from
   * the events contains the links. On names of clients and topics never removed it is exactly the links:
   * a replayed pair is a link of a registered client of that name.
   */
  lemma EventsReplayToLinks(cfg: Config, c2Secret: Bytes, calls: seq<(Call, Faults)>, name: string, topic: string)
    requires cfg.Usable()
    ensures var s := WatchAll(cfg, Watched(World(EMPTY, c2Secret, [], [], {}), {}, {}), calls);
      && (Linked(s.world.tables, name, topic) ==> (name, topic) in Replay(s.world.events))
      && (name !in s.goneClients && topic !in s.goneTopics ==>
            ((name, topic) in Replay(s.world.events) <==> Linked(s.world.tables, name, topic)))
  {
    RunsFaithful(cfg, Watched(World(EMPTY, c2Secret, [], [], {}), {}, {}), calls);
  }

  /** The same, asked about one registered client: it is the only one of its name. */
  lemma LinkedById(cfg: Config, t: Tables, id: Bytes, topic: string)
    requires Consistent(cfg.lib, t) && id in t.clients
    ensures (id, topic) in t.links <==> Linked(t, t.clients[id].name, topic)
  {
  }
}
