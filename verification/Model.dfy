/** What every service call of internal/services/e4.go does to the server's state, as functions on values. */
module Model {
  import opened Wrappers
  import opened Pages
  import opened Crypto
  import opened Faults
  import opened Store

  datatype Event = ClientSubscribed(client: string, topic: string) | ClientUnsubscribed(client: string, topic: string)
  datatype Sent = Sent(to: Bytes, payload: Bytes)
  datatype Status = Done | ClientNotFound | TopicNotFound | Internal | Validation | InvalidTopic | InvalidCryptoMode

  datatype Config = Config(
    lib: Library,
    dbKey: Bytes,
    pubKeyMode: bool,
    sendPubKey: bool, // NewClientKeySendPubkey
    topicBatch: nat,
    linkedBatch: nat,
    c2Batch: nat,
    validTopic: string -> bool)
  {
    predicate Usable() {
      topicBatch > 0 && linkedBatch > 0 && c2Batch > 0
    }
  }

  /**
   * The server's state: its tables, its C2 private key, everything it published, in order,
   * every event it dispatched, in order, and the topics it monitors.
   */
  datatype World = World(
    tables: Tables,
    c2Secret: Bytes,
    sent: seq<Sent>,
    events: seq<Event>,
    monitored: set<string>)

  // ---- Names and IDs

  function ValidateE4NameOrIDPair(lib: Library, name: string, id: Bytes): (r: Option<Bytes>)
    ensures r.Some? ==> NameFits(lib, name, r.value)
    ensures r.Some? && id != [] ==> r.value == id
    ensures r.None? <==> if name == "" then |id| != lib.idLen else id != [] && id != lib.hashAlias(name)
  {
    if name != "" then
      if id != [] then
        if lib.hashAlias(name) != id then None else Some(id)
      else Some(lib.hashAlias(name))
    else if |id| != lib.idLen then None
    else Some(id)
  }

  /** The pair a call settles on is accepted again, and unchanged. */
  lemma ValidatedPairIsStable(lib: Library, name: string, id: Bytes)
    requires lib.HashesAreIds() && ValidateE4NameOrIDPair(lib, name, id).Some?
    ensures var chosen := ValidateE4NameOrIDPair(lib, name, id).value;
      ValidateE4NameOrIDPair(lib, name, chosen) == Some(chosen) && |chosen| == lib.idLen
  {
    assert |lib.hashAlias(name)| == lib.idLen;
  }

  // ---- Sending commands

  /** One protected command to one client; None when it was not published. */
  function Send(cfg: Config, w: World, cmd: Command, client: Client, f: Faults): (r: Option<World>)
    ensures r.Some? ==> r.value == w.(sent := r.value.sent) && w.sent <= r.value.sent
  {
    match cfg.lib.decrypt(cfg.dbKey, client.key)
    case None => None
    case Some(stored) =>
      match cfg.lib.ProtectCommand(cfg.pubKeyMode, w.c2Secret, stored, cmd)
      case None => None
      case Some(payload) =>
        if f(Publish(client.id)) then None else Some(w.(sent := w.sent + [Sent(client.id, payload)]))
  }

  /** A command to each client in turn; a client that cannot be reached is skipped. */
  function SendAll(cfg: Config, w: World, cmd: Command, clients: seq<Client>, f: Faults): (r: World)
    ensures r == w.(sent := r.sent) && w.sent <= r.sent
  {
    if clients == [] then w
    else
      var before := SendAll(cfg, w, cmd, clients[..|clients| - 1], f);
      match Send(cfg, before, cmd, clients[|clients| - 1], f)
      case None => before
      case Some(after) => after
  }

  function Readable(f: Faults, batch: nat): nat -> bool
    requires batch > 0
  {
    (i: nat) => !f(ReadPage(PageStart(i, batch)))
  }

  /** The clients a counted fan-out comes to: those whose page could be read, and none if the count was lost. */
  function FanOut(clients: seq<Client>, batch: nat, f: Faults): seq<Client>
    requires batch > 0
  {
    if f(CountLost) then [] else Select(clients, Readable(f, batch))
  }

  /** The clients NewC2Key comes to: its loop stops at the first page shorter than its batch. */
  function C2Targets(clients: seq<Client>, batch: nat): seq<Client> {
    if batch <= QUERY_LIMIT then clients else Page(clients, 0, QUERY_LIMIT)
  }

  // ---- Lookups

  function FindClient(t: Tables, id: Bytes, fails: bool): Result<Client, Status> {
    if fails then Err(Internal) else if id !in t.clients then Err(ClientNotFound) else Ok(Row(t, id))
  }

  function FindTopic(t: Tables, topic: string, fails: bool): Result<Topic, Status> {
    if fails then Err(Internal) else if topic !in t.topics then Err(TopicNotFound)
    else Ok(Topic(topic, t.topics[topic]))
  }

  // ---- The calls

  function NewClient(cfg: Config, w: World, name: string, id: Bytes, key: Bytes, f: Faults): (r: (World, Status))
    ensures r.0 == w.(tables := w.tables.(clients := r.0.tables.clients)) && NamesKept(w.tables, r.0.tables)
  {
    match ValidateE4NameOrIDPair(cfg.lib, name, id)
    case None => (w, Validation)
    case Some(newId) =>
      if !cfg.lib.ValidKey(cfg.pubKeyMode, key) then (w, Validation)
      else if f(Encrypt) then (w, Internal)
      else
        var r := InsertClient(cfg.lib, w.tables, name, newId, cfg.lib.encrypt(cfg.dbKey, key), f);
        (w.(tables := r.0), if r.1.None? then Done else Internal)
  }

  function RemoveClient(cfg: Config, w: World, id: Bytes, f: Faults): (r: (World, Status))
    ensures r.0 == w.(tables := r.0.tables)
  {
    var r := DeleteClient(w.tables, id, f);
    (w.(tables := r.0), if r.1.None? then Done else if r.1.value.NotFound? then ClientNotFound else Internal)
  }

  function NewTopicClient(cfg: Config, w: World, id: Bytes, topic: string, f: Faults): (r: (World, Status))
    ensures r.0 == w.(tables := r.0.tables, sent := r.0.sent, events := r.0.events) && w.sent <= r.0.sent
    ensures
      || (r.0.tables == w.tables && r.0.events == w.events)
      || (&& id in w.tables.clients
          && r.0.tables == w.tables.(links := w.tables.links + {(id, topic)})
          && r.0.events == w.events + [ClientSubscribed(w.tables.clients[id].name, topic)])
  {
    match FindClient(w.tables, id, f(ReadClient))
    case Err(e) => (w, e)
    case Ok(client) =>
      match FindTopic(w.tables, topic, f(ReadTopic))
      case Err(e) => (w, e)
      case Ok(topicKey) =>
        match cfg.lib.decrypt(cfg.dbKey, topicKey.key)
        case None => (w, Internal)
        case Some(key) =>
          if f(Build) then (w, Internal)
          else match Send(cfg, w, SetTopicKey(topic, key), client, f)
          case None => (w, Internal)
          case Some(sent) =>
            var r := Store.LinkClientTopic(sent.tables, id, topic, f);
            if r.1.Some? then (sent, Internal)
            else (sent.(tables := r.0, events := sent.events + [ClientSubscribed(client.name, topic)]), Done)
  }

  function RemoveTopicClient(cfg: Config, w: World, id: Bytes, topic: string, f: Faults): (r: (World, Status))
    ensures r.0 == w.(tables := r.0.tables, sent := r.0.sent, events := r.0.events) && w.sent <= r.0.sent
    ensures
      || (r.0.tables == w.tables && r.0.events == w.events)
      || (&& id in w.tables.clients
          && r.0.tables == w.tables.(links := w.tables.links - {(id, topic)})
          && r.0.events == w.events + [ClientUnsubscribed(w.tables.clients[id].name, topic)])
  {
    match FindClient(w.tables, id, f(ReadClient))
    case Err(e) => (w, e)
    case Ok(client) =>
      match FindTopic(w.tables, topic, f(ReadTopic))
      case Err(e) => (w, e)
      case Ok(topicKey) =>
        if f(Build) then (w, Internal)
        else match Send(cfg, w, Command.RemoveTopic(topic), client, f)
        case None => (w, Internal)
        case Some(sent) =>
          var r := Store.UnlinkClientTopic(sent.tables, id, topic, f);
          if r.1.Some? then (sent, Internal)
          else (sent.(tables := r.0, events := sent.events + [ClientUnsubscribed(client.name, topic)]), Done)
  }

  /** The calls that only send one command to one client. */
  function SendOne(cfg: Config, w: World, id: Bytes, cmd: Command, f: Faults): (r: (World, Status))
    ensures r.0 == w.(sent := r.0.sent) && w.sent <= r.0.sent
  {
    match FindClient(w.tables, id, f(ReadTarget))
    case Err(e) => (w, e)
    case Ok(client) =>
      if f(Build) then (w, Internal)
      else match Send(cfg, w, cmd, client, f)
      case None => (w, Internal)
      case Some(sent) => (sent, Done)
  }

  function ResetClient(cfg: Config, w: World, id: Bytes, f: Faults): (r: (World, Status))
    ensures r.0 == w.(sent := r.0.sent) && w.sent <= r.0.sent
  {
    SendOne(cfg, w, id, ResetTopics, f)
  }

  function SendClientPubKey(cfg: Config, w: World, source: Bytes, target: Bytes, f: Faults): (r: (World, Status))
    ensures r.0 == w.(sent := r.0.sent) && w.sent <= r.0.sent
  {
    if !cfg.pubKeyMode then (w, InvalidCryptoMode)
    else match FindClient(w.tables, source, f(ReadClient))
    case Err(e) => (w, e)
    case Ok(client) =>
      match FindClient(w.tables, target, f(ReadTarget))
      case Err(e) => (w, e)
      case Ok(_) =>
        match cfg.lib.decrypt(cfg.dbKey, client.key)
        case None => (w, Internal)
        case Some(key) => SendOne(cfg, w, target, SetPubKey(key, client.name), f)
  }

  function RemoveClientPubKey(cfg: Config, w: World, source: Bytes, target: Bytes, f: Faults): (r: (World, Status))
    ensures r.0 == w.(sent := r.0.sent) && w.sent <= r.0.sent
  {
    if !cfg.pubKeyMode then (w, InvalidCryptoMode)
    else match FindClient(w.tables, source, f(ReadClient))
    case Err(e) => (w, e)
    case Ok(client) => SendOne(cfg, w, target, RemovePubKey(client.name), f)
  }

  function ResetClientPubKeys(cfg: Config, w: World, target: Bytes, f: Faults): (r: (World, Status))
    ensures r.0 == w.(sent := r.0.sent) && w.sent <= r.0.sent
  {
    if !cfg.pubKeyMode then (w, InvalidCryptoMode) else SendOne(cfg, w, target, ResetPubKeys, f)
  }

  /** The first half of NewTopic, up to and including its commit: the new tables, or why it failed. */
  function CommitTopic(cfg: Config, t: Tables, topic: string, key: Bytes, f: Faults): (r: Result<Tables, Status>)
    ensures r.Ok? ==> r.value == t.(topics := t.topics[topic := cfg.lib.encrypt(cfg.dbKey, key)])
    ensures r.Ok? && NamesUnique(t) ==> NamesUnique(r.value)
  {
    if !cfg.validTopic(topic) then Err(InvalidTopic)
    else if f(Encrypt) || f(BeginTx) then Err(Internal)
    else
      var r := InsertTopicKey(t, topic, cfg.lib.encrypt(cfg.dbKey, key), f);
      if r.1.Some? || f(Build) || f(CountRows) || f(CommitTx) then Err(Internal) else Ok(r.0)
  }

  function TopicTargets(cfg: Config, t: Tables, topic: string, f: Faults): seq<Client>
    requires cfg.Usable() && NamesUnique(t)
  {
    if f(CommandType) then [] else FanOut(TopicClients(t, topic), cfg.topicBatch, f)
  }

  function NewTopic(cfg: Config, w: World, topic: string, key: Bytes, f: Faults): (r: (World, Status))
    requires cfg.Usable() && NamesUnique(w.tables)
    ensures r.0 == w.(tables := w.tables.(topics := r.0.tables.topics), sent := r.0.sent, monitored := r.0.monitored)
    ensures w.sent <= r.0.sent
  {
    match CommitTopic(cfg, w.tables, topic, key, f)
    case Err(e) => (w, e)
    case Ok(t) =>
      var sent := SendAll(cfg, w.(tables := t), SetTopicKey(topic, key), TopicTargets(cfg, t, topic, f), f);
      if f(Subscribe) then (sent, Internal) else (sent.(monitored := sent.monitored + {topic}), Done)
  }

  function RemoveTopic(cfg: Config, w: World, topic: string, f: Faults): (r: (World, Status))
    ensures r.0 == w.(tables := r.0.tables, monitored := r.0.monitored)
  {
    var watched := if f(Unsubscribe) then w.monitored else w.monitored - {topic};
    var r := DeleteTopic(w.tables, topic, f);
    (w.(tables := r.0, monitored := watched),
     if r.1.None? then Done else if r.1.value.NotFound? then TopicNotFound else Internal)
  }

  function NewClientKey(cfg: Config, w: World, id: Bytes, clientKey: Bytes, f: Faults): (r: (World, Status))
    requires cfg.Usable() && NamesUnique(w.tables)
    ensures r.0 == w.(tables := w.tables.(clients := r.0.tables.clients), sent := r.0.sent) && w.sent <= r.0.sent
    ensures NamesKept(w.tables, r.0.tables)
  {
    match FindClient(w.tables, id, f(ReadClient))
    case Err(e) => (w, e)
    case Ok(client) =>
      if f(NewKey) || f(Build) then (w, Internal)
      else match Send(cfg, w, SetIDKey(clientKey), client, f)
      case None => (w, Internal)
      case Some(sent) =>
        if f(Encrypt) then (sent, Internal)
        else
          var stored := cfg.lib.StoredHalf(cfg.pubKeyMode, clientKey);
          var r := InsertClient(cfg.lib, sent.tables, client.name, id, cfg.lib.encrypt(cfg.dbKey, stored), f);
          if r.1.Some? then (sent, Internal)
          else if !(cfg.sendPubKey && cfg.pubKeyMode) then (sent.(tables := r.0), Done)
          else if f(BuildPubKey) || f(CountRows) then (sent.(tables := r.0), Internal)
          else
            var targets := FanOut(LinkedClients(r.0, id), cfg.linkedBatch, f);
            (SendAll(cfg, sent.(tables := r.0), SetPubKey(stored, client.name), targets, f), Done)
  }

  function LinkClient(cfg: Config, w: World, source: Bytes, target: Bytes, f: Faults): (r: (World, Status))
    ensures r.0 == w.(tables := w.tables.(peers := r.0.tables.peers))
  {
    match FindClient(w.tables, source, f(ReadClient))
    case Err(e) => (w, e)
    case Ok(_) =>
      match FindClient(w.tables, target, f(ReadTarget))
      case Err(e) => (w, e)
      case Ok(_) =>
        var r := Store.LinkClient(w.tables, source, target, f);
        (w.(tables := r.0), if r.1.None? then Done else Internal)
  }

  function UnlinkClient(cfg: Config, w: World, source: Bytes, target: Bytes, f: Faults): (r: (World, Status))
    ensures r.0 == w.(tables := w.tables.(peers := r.0.tables.peers))
  {
    match FindClient(w.tables, source, f(ReadClient))
    case Err(e) => (w, e)
    case Ok(_) =>
      match FindClient(w.tables, target, f(ReadTarget))
      case Err(e) => (w, e)
      case Ok(_) =>
        var r := Store.UnlinkClient(w.tables, source, target, f);
        (w.(tables := r.0), if r.1.None? then Done else Internal)
  }

  /** `backed` and `committed` say how the two file steps of the key rotation went. */
  function NewC2Key(cfg: Config, w: World, newKey: Bytes, f: Faults, backed: bool, committed: bool)
    : (r: (World, Status))
    requires NamesUnique(w.tables)
    ensures r.0 == w.(sent := r.0.sent, c2Secret := r.0.c2Secret) && w.sent <= r.0.sent
  {
    if !cfg.pubKeyMode then (w, InvalidCryptoMode)
    else if !backed || f(Build) then (w, Internal)
    else
      var cmd := SetC2Key(cfg.lib.C2Public(newKey));
      var sent := SendAll(cfg, w, cmd, C2Targets(AllClients(w.tables), cfg.c2Batch), f);
      if committed then (sent.(c2Secret := newKey), Done) else (sent, Internal)
  }

  function ProtectMessage(cfg: Config, w: World, topic: string, data: Bytes, f: Faults): Result<Bytes, Status> {
    match FindTopic(w.tables, topic, f(ReadTopic))
    case Err(e) => Err(e)
    case Ok(topicKey) =>
      match cfg.lib.decrypt(cfg.dbKey, topicKey.key)
      case None => Err(Internal)
      case Some(key) => if f(Encrypt) then Err(Internal) else Ok(cfg.lib.protect(key, data))
  }

  function UnprotectMessage(cfg: Config, w: World, topic: string, data: Bytes, f: Faults): Result<Bytes, Status> {
    match FindTopic(w.tables, topic, f(ReadTopic))
    case Err(e) => Err(e)
    case Ok(topicKey) =>
      match cfg.lib.decrypt(cfg.dbKey, topicKey.key)
      case None => Err(Internal)
      case Some(key) =>
        match cfg.lib.unprotect(key, data)
        case None => Err(Internal)
        case Some(clear) => Ok(clear)
  }

  // ---- One call of any kind, and runs of calls

  datatype Call =
    | CallNewClient(name: string, id: Bytes, key: Bytes)
    | CallRemoveClient(id: Bytes)
    | CallNewTopicClient(id: Bytes, topic: string)
    | CallRemoveTopicClient(id: Bytes, topic: string)
    | CallResetClient(id: Bytes)
    | CallNewTopic(topic: string, key: Bytes)
    | CallRemoveTopic(topic: string)
    | CallNewClientKey(id: Bytes, key: Bytes)
    | CallLinkClient(source: Bytes, target: Bytes)
    | CallUnlinkClient(source: Bytes, target: Bytes)
    | CallSendClientPubKey(source: Bytes, target: Bytes)
    | CallRemoveClientPubKey(source: Bytes, target: Bytes)
    | CallResetClientPubKeys(target: Bytes)
    | CallNewC2Key(key: Bytes, backed: bool, committed: bool)

  function Perform(cfg: Config, w: World, call: Call, f: Faults): (r: (World, Status))
    requires cfg.Usable() && NamesUnique(w.tables)
    ensures w.sent <= r.0.sent
  {
    match call
    case CallNewClient(name, id, key) => NewClient(cfg, w, name, id, key, f)
    case CallRemoveClient(id) => RemoveClient(cfg, w, id, f)
    case CallNewTopicClient(id, topic) => NewTopicClient(cfg, w, id, topic, f)
    case CallRemoveTopicClient(id, topic) => RemoveTopicClient(cfg, w, id, topic, f)
    case CallResetClient(id) => ResetClient(cfg, w, id, f)
    case CallNewTopic(topic, key) => NewTopic(cfg, w, topic, key, f)
    case CallRemoveTopic(topic) => RemoveTopic(cfg, w, topic, f)
    case CallNewClientKey(id, key) => NewClientKey(cfg, w, id, key, f)
    case CallLinkClient(source, target) => LinkClient(cfg, w, source, target, f)
    case CallUnlinkClient(source, target) => UnlinkClient(cfg, w, source, target, f)
    case CallSendClientPubKey(source, target) => SendClientPubKey(cfg, w, source, target, f)
    case CallRemoveClientPubKey(source, target) => RemoveClientPubKey(cfg, w, source, target, f)
    case CallResetClientPubKeys(target) => ResetClientPubKeys(cfg, w, target, f)
    case CallNewC2Key(key, backed, committed) => NewC2Key(cfg, w, key, f, backed, committed)
  }

  lemma NewTopicKeepsStore(cfg: Config, w: World, topic: string, key: Bytes, f: Faults)
    requires cfg.Usable() && Consistent(cfg.lib, w.tables)
    ensures Consistent(cfg.lib, NewTopic(cfg, w, topic, key, f).0.tables)
  {
    InsertsStayConsistent(cfg.lib, w.tables, "", [], topic, cfg.lib.encrypt(cfg.dbKey, key), f);
  }

  lemma NewClientKeyKeepsStore(cfg: Config, w: World, id: Bytes, key: Bytes, f: Faults)
    requires cfg.Usable() && Consistent(cfg.lib, w.tables)
    ensures Consistent(cfg.lib, NewClientKey(cfg, w, id, key, f).0.tables)
  {
    hide Send, SendAll, FanOut, Consistent;
    if id in w.tables.clients {
      var stored := cfg.lib.encrypt(cfg.dbKey, cfg.lib.StoredHalf(cfg.pubKeyMode, key));
      InsertsStayConsistent(cfg.lib, w.tables, w.tables.clients[id].name, id, "", stored, f);
    }
  }

  lemma NewTopicClientKeepsStore(cfg: Config, w: World, id: Bytes, topic: string, f: Faults)
    requires Consistent(cfg.lib, w.tables)
    ensures Consistent(cfg.lib, NewTopicClient(cfg, w, id, topic, f).0.tables)
  {
    JoinsStayConsistent(cfg.lib, w.tables, id, id, topic, f);
  }

  lemma RemoveTopicClientKeepsStore(cfg: Config, w: World, id: Bytes, topic: string, f: Faults)
    requires Consistent(cfg.lib, w.tables)
    ensures Consistent(cfg.lib, RemoveTopicClient(cfg, w, id, topic, f).0.tables)
  {
    JoinsStayConsistent(cfg.lib, w.tables, id, id, topic, f);
  }

  lemma PeerCallsKeepStore(cfg: Config, w: World, source: Bytes, target: Bytes, f: Faults)
    requires Consistent(cfg.lib, w.tables)
    ensures Consistent(cfg.lib, LinkClient(cfg, w, source, target, f).0.tables)
    ensures Consistent(cfg.lib, UnlinkClient(cfg, w, source, target, f).0.tables)
  {
    JoinsStayConsistent(cfg.lib, w.tables, source, target, "", f);
  }

  lemma ClientCallsKeepStore(cfg: Config, w: World, name: string, id: Bytes, key: Bytes, topic: string, f: Faults)
    requires Consistent(cfg.lib, w.tables)
    ensures Consistent(cfg.lib, NewClient(cfg, w, name, id, key, f).0.tables)
    ensures Consistent(cfg.lib, RemoveClient(cfg, w, id, f).0.tables)
    ensures Consistent(cfg.lib, RemoveTopic(cfg, w, topic, f).0.tables)
  {
    DeletesStayConsistent(cfg.lib, w.tables, id, topic, f);
    var r := ValidateE4NameOrIDPair(cfg.lib, name, id);
    if r.Some? {
      InsertsStayConsistent(cfg.lib, w.tables, name, r.value, "", cfg.lib.encrypt(cfg.dbKey, key), f);
    }
  }

  /** The store invariant holds after any call, whatever failed on the way. */
  lemma CallKeepsStore(cfg: Config, w: World, call: Call, f: Faults)
    requires cfg.Usable() && Consistent(cfg.lib, w.tables)
    ensures Consistent(cfg.lib, Perform(cfg, w, call, f).0.tables)
  {
    hide NewClient, RemoveClient, RemoveTopic, NewTopicClient, RemoveTopicClient, NewTopic, NewClientKey,
         LinkClient, UnlinkClient, NewC2Key, SendOne, Consistent;
    match call
    case CallNewClient(name, id, key) => ClientCallsKeepStore(cfg, w, name, id, key, "", f);
    case CallRemoveClient(id) => ClientCallsKeepStore(cfg, w, "", id, [], "", f);
    case CallRemoveTopic(topic) => ClientCallsKeepStore(cfg, w, "", [], [], topic, f);
    case CallNewTopicClient(id, topic) => NewTopicClientKeepsStore(cfg, w, id, topic, f);
    case CallRemoveTopicClient(id, topic) => RemoveTopicClientKeepsStore(cfg, w, id, topic, f);
    case CallNewTopic(topic, key) => NewTopicKeepsStore(cfg, w, topic, key, f);
    case CallNewClientKey(id, key) => NewClientKeyKeepsStore(cfg, w, id, key, f);
    case CallLinkClient(source, target) => PeerCallsKeepStore(cfg, w, source, target, f);
    case CallUnlinkClient(source, target) => PeerCallsKeepStore(cfg, w, source, target, f);
    case _ =>
  }

  /** Calls made one after the other, each with its own faults. */
  ghost function Run(cfg: Config, w: World, calls: seq<(Call, Faults)>): (r: World)
    requires cfg.Usable() && Consistent(cfg.lib, w.tables)
    ensures Consistent(cfg.lib, r.tables)
  {
    if calls == [] then w
    else
      var before := Run(cfg, w, calls[..|calls| - 1]);
      var last := calls[|calls| - 1];
      CallKeepsStore(cfg, before, last.0, last.1);
      Perform(cfg, before, last.0, last.1).0
  }
}
