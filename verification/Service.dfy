/** The E4 service object of internal/services/e4.go, against the functions of module Model. */
module Service {
  import opened Wrappers
  import opened Pages
  import opened Crypto
  import opened Faults
  import opened Store
  import opened Database
  import opened Keys
  import opened Rotation
  import opened Fanouts
  import M = Model

  class E4Service {
    const cfg: M.Config
    const db: GormDB
    const e4Key: E4Key
    var sent: seq<M.Sent> // everything the broker accepted, in order
    var events: seq<M.Event> // everything dispatched, in order
    var monitored: set<string> // the broker subscriptions kept for monitoring

    constructor (cfg: M.Config, db: GormDB, e4Key: E4Key)
      ensures this.cfg == cfg && this.db == db && this.e4Key == e4Key
      ensures sent == [] && events == [] && monitored == {}
    {
      this.cfg, this.db, this.e4Key := cfg, db, e4Key;
      sent, events, monitored := [], [], {};
    }

    ghost predicate Valid()
      reads this, db, e4Key
    {
      && cfg.Usable() && db.lib == cfg.lib && Consistent(cfg.lib, db.tables)
      && e4Key.lib == cfg.lib && e4Key.pubKeyMode == cfg.pubKeyMode && e4Key.Valid() && e4Key.phase.Idle?
    }

    ghost function World(): M.World
      reads this, db, e4Key
    {
      M.World(db.tables, e4Key.c2PrivKey, sent, events, monitored)
    }

    static function Of(e: DbError, missing: M.Status): M.Status {
      if e.NotFound? then missing else M.Internal
    }

    // ---- Sending

    method SendCommandToClient(cmd: Command, client: Client, f: Faults) returns (ok: bool)
      modifies this`sent
      ensures sent == old(sent) + Packet(cfg, e4Key.c2PrivKey, cmd, client, f)
      ensures ok <==> Packet(cfg, e4Key.c2PrivKey, cmd, client, f) != []
      ensures ok == M.Send(cfg, old(World()), cmd, client, f).Some?
      ensures ok ==> sent == M.Send(cfg, old(World()), cmd, client, f).value.sent
      ensures !ok ==> sent == old(sent)
    {
      var stored := cfg.lib.decrypt(cfg.dbKey, client.key);
      if stored.None? {
        return false;
      }
      var payload := cfg.lib.ProtectCommand(cfg.pubKeyMode, e4Key.c2PrivKey, stored.value, cmd);
      if payload.None? {
        return false;
      }
      if f(Publish(client.id)) {
        return false;
      }
      sent := sent + [M.Sent(client.id, payload.value)];
      return true;
    }

    /** The fan-out that began at `start` has tried exactly `done` so far. */
    ghost predicate Tried(start: M.World, cmd: Command, done: seq<Client>, f: Faults)
      reads this, e4Key
    {
      start.c2Secret == e4Key.c2PrivKey && sent == M.SendAll(cfg, start, cmd, done, f).sent
    }

    /** The inner loop of every fan-out: a client that cannot be reached is skipped. */
    method SendCommandToEach(cmd: Command, clients: seq<Client>, f: Faults,
                             ghost start: M.World, ghost done: seq<Client>)
      requires Tried(start, cmd, done, f)
      modifies this`sent
      ensures Tried(start, cmd, done + clients, f)
    {
      hide M.SendAll, Packet;
      assert done + clients[..0] == done;
      for i := 0 to |clients|
        invariant Tried(start, cmd, done + clients[..i], f)
      {
        SendAllSnoc(cfg, start, cmd, done + clients[..i], clients[i], f);
        assert done + clients[..i + 1] == done + clients[..i] + [clients[i]];
        var _ := SendCommandToClient(cmd, clients[i], f);
      }
      assert done + clients[..|clients|] == done + clients;
    }

    /** One page of a fan-out over `all`; a page that could not be read is skipped. */
    method SendPage(cmd: Command, page: Result<seq<Client>, DbError>, f: Faults, ghost start: M.World,
                    ghost all: seq<Client>, ghost offset: nat, ghost next: nat, ghost batch: nat,
                    ghost read: seq<Client>, ghost done: seq<Client>)
      returns (ghost read': seq<Client>, ghost done': seq<Client>)
      requires batch > 0 && Aligned(offset, batch) && offset < |all| && next == offset + batch
      requires page == if f(ReadPage(offset)) then Err(DbError.Failed) else Ok(Page(all, offset, batch))
      requires read == all[..offset] && done == Select(read, M.Readable(f, batch)) && Tried(start, cmd, done, f)
      modifies this`sent
      ensures read' == all[..Min(next, |all|)] && done' == Select(read', M.Readable(f, batch)) && Aligned(next, batch)
      ensures Tried(start, cmd, done', f)
    {
      PageSelected(all, offset, batch, f);
      read' := all[..Min(offset + batch, |all|)];
      done' := done;
      if page.Ok? {
        SendCommandToEach(cmd, page.value, f, start, done);
        done' := done + page.value;
      }
    }

    method SendTopicPage(cmd: Command, topic: string, offset: nat, ghost next: nat, f: Faults, ghost start: M.World,
                         ghost all: seq<Client>, ghost read: seq<Client>, ghost done: seq<Client>)
      returns (ghost read': seq<Client>, ghost done': seq<Client>)
      requires db.Valid() && topic in db.tables.topics && all == TopicClients(db.tables, topic) && cfg.topicBatch > 0
      requires Aligned(offset, cfg.topicBatch) && offset < |all| && next == offset + cfg.topicBatch
      requires read == all[..offset] && done == Select(read, M.Readable(f, cfg.topicBatch))
      requires Tried(start, cmd, done, f)
      modifies this`sent
      ensures read' == all[..Min(next, |all|)] && done' == Select(read', M.Readable(f, cfg.topicBatch))
      ensures Aligned(next, cfg.topicBatch)
      ensures Tried(start, cmd, done', f)
    {
      var page := db.GetClientsForTopic(topic, offset, cfg.topicBatch, f(ReadPage(offset)));
      read', done' := SendPage(cmd, page, f, start, all, offset, next, cfg.topicBatch, read, done);
    }

    method SendCommandToTopicClients(cmd: Command, topic: string, clientCount: nat, f: Faults)
      requires db.Valid() && cfg.Usable() && topic in db.tables.topics
      requires clientCount == Counted(|TopicClients(db.tables, topic)|, f(CountLost))
      modifies this`sent
      ensures sent == M.SendAll(cfg, old(World()), cmd, M.TopicTargets(cfg, db.tables, topic, f), f).sent
    {
      if f(CommandType) {
        return;
      }
      SendTopicPages(cmd, topic, clientCount, f, World(), TopicClients(db.tables, topic));
    }

    method SendTopicPages(cmd: Command, topic: string, clientCount: nat, f: Faults,
                          ghost start: M.World, ghost all: seq<Client>)
      requires db.Valid() && cfg.topicBatch > 0 && topic in db.tables.topics
      requires all == TopicClients(db.tables, topic) && clientCount == Counted(|all|, f(CountLost))
      requires Tried(start, cmd, [], f)
      modifies this`sent
      ensures Tried(start, cmd, M.FanOut(all, cfg.topicBatch, f), f)
    {
      hide *;
      FanOutEnds(all, 0, cfg.topicBatch, f);
      ghost var read: seq<Client>, done: seq<Client> := [], [];
      var offset: nat := 0;
      while offset < clientCount
        invariant Aligned(offset, cfg.topicBatch) && (clientCount == 0 ==> done == [])
        invariant read == all[..Min(offset, |all|)] && done == Select(read, M.Readable(f, cfg.topicBatch))
        invariant Tried(start, cmd, done, f)
      {
        var next := offset + cfg.topicBatch;
        read, done := SendTopicPage(cmd, topic, offset, next, f, start, all, read, done);
        offset := next;
      }
      FanOutEnds(all, offset, cfg.topicBatch, f);
    }

    method SendNewPubKeyToLinkedClients(client: Client, newPubKey: Bytes, f: Faults) returns (ok: bool)
      requires db.Valid() && cfg.Usable() && client.id in db.tables.clients
      modifies this`sent
      ensures ok == !(f(BuildPubKey) || f(CountRows))
      ensures sent == if !ok then old(sent)
                      else M.SendAll(cfg, old(World()), SetPubKey(newPubKey, client.name),
                                     M.FanOut(LinkedClients(db.tables, client.id), cfg.linkedBatch, f), f).sent
    {
      if f(BuildPubKey) {
        return false;
      }
      var count := db.CountLinkedClients(client.id, f(CountRows), f(CountLost));
      if count.Err? {
        return false;
      }
      SendLinkedPages(SetPubKey(newPubKey, client.name), client.id, count.value, f,
                      World(), LinkedClients(db.tables, client.id));
      return true;
    }

    method SendLinkedPage(cmd: Command, id: Bytes, offset: nat, ghost next: nat, f: Faults, ghost start: M.World,
                         ghost all: seq<Client>, ghost read: seq<Client>, ghost done: seq<Client>)
      returns (ghost read': seq<Client>, ghost done': seq<Client>)
      requires db.Valid() && id in db.tables.clients && all == LinkedClients(db.tables, id) && cfg.linkedBatch > 0
      requires Aligned(offset, cfg.linkedBatch) && offset < |all| && next == offset + cfg.linkedBatch
      requires read == all[..offset] && done == Select(read, M.Readable(f, cfg.linkedBatch))
      requires Tried(start, cmd, done, f)
      modifies this`sent
      ensures read' == all[..Min(next, |all|)] && done' == Select(read', M.Readable(f, cfg.linkedBatch))
      ensures Aligned(next, cfg.linkedBatch)
      ensures Tried(start, cmd, done', f)
    {
      var page := db.GetLinkedClientsForClientByID(id, offset, cfg.linkedBatch, f(ReadPage(offset)));
      read', done' := SendPage(cmd, page, f, start, all, offset, next, cfg.linkedBatch, read, done);
    }

    method SendLinkedPages(cmd: Command, id: Bytes, count: nat, f: Faults, ghost start: M.World, ghost all: seq<Client>)
      requires db.Valid() && cfg.linkedBatch > 0 && id in db.tables.clients
      requires all == LinkedClients(db.tables, id) && count == Counted(|all|, f(CountLost))
      requires Tried(start, cmd, [], f)
      modifies this`sent
      ensures Tried(start, cmd, M.FanOut(all, cfg.linkedBatch, f), f)
    {
      hide *;
      FanOutEnds(all, 0, cfg.linkedBatch, f);
      ghost var read: seq<Client>, done: seq<Client> := [], [];
      var offset: nat := 0;
      while offset < count
        invariant Aligned(offset, cfg.linkedBatch) && (count == 0 ==> done == [])
        invariant read == all[..Min(offset, |all|)] && done == Select(read, M.Readable(f, cfg.linkedBatch))
        invariant Tried(start, cmd, done, f)
      {
        var next := offset + cfg.linkedBatch;
        read, done := SendLinkedPage(cmd, id, offset, next, f, start, all, read, done);
        offset := next;
      }
      FanOutEnds(all, offset, cfg.linkedBatch, f);
    }

    // ---- Clients

    method NewClient(name: string, id: Bytes, key: Bytes, f: Faults) returns (status: M.Status)
      requires Valid()
      modifies this, db
      ensures Valid() && (World(), status) == M.NewClient(cfg, old(World()), name, id, key, f)
    {
      M.ClientCallsKeepStore(cfg, World(), name, id, key, "", f);
      var newId := M.ValidateE4NameOrIDPair(cfg.lib, name, id);
      if newId.None? {
        return M.Validation;
      }
      if !cfg.lib.ValidKey(cfg.pubKeyMode, key) {
        return M.Validation;
      }
      if f(Encrypt) {
        return M.Internal;
      }
      var protectedKey := cfg.lib.encrypt(cfg.dbKey, key);
      var err := db.InsertClient(name, newId.value, protectedKey, f);
      return if err.Some? then M.Internal else M.Done;
    }

    method RemoveClient(id: Bytes, f: Faults) returns (status: M.Status)
      requires Valid()
      modifies this, db
      ensures Valid() && (World(), status) == M.RemoveClient(cfg, old(World()), id, f)
    {
      M.ClientCallsKeepStore(cfg, World(), "", id, [], "", f);
      var err := db.DeleteClientByID(id, f);
      return if err.Some? then Of(err.value, M.ClientNotFound) else M.Done;
    }

    method NewClientKey(id: Bytes, clientKey: Bytes, f: Faults) returns (status: M.Status)
      requires Valid()
      modifies this, db
      ensures Valid() && (World(), status) == M.NewClientKey(cfg, old(World()), id, clientKey, f)
    {
      M.NewClientKeyKeepsStore(cfg, World(), id, clientKey, f);
      var client := db.GetClientByID(id, f(ReadClient));
      if client.Err? {
        return Of(client.error, M.ClientNotFound);
      }
      if f(NewKey) || f(Build) {
        return M.Internal;
      }
      var published := SendCommandToClient(SetIDKey(clientKey), client.value, f);
      if !published {
        return M.Internal;
      }
      if f(Encrypt) {
        return M.Internal;
      }
      var stored := cfg.lib.StoredHalf(cfg.pubKeyMode, clientKey);
      var err := db.InsertClient(client.value.name, id, cfg.lib.encrypt(cfg.dbKey, stored), f);
      if err.Some? {
        return M.Internal;
      }
      if cfg.sendPubKey && cfg.pubKeyMode {
        var ok := SendNewPubKeyToLinkedClients(client.value, stored, f);
        if !ok {
          return M.Internal;
        }
      }
      return M.Done;
    }

    // ---- Topics

    method NewTopic(topic: string, key: Bytes, f: Faults) returns (status: M.Status)
      requires Valid()
      modifies this, db
      ensures Valid() && (World(), status) == M.NewTopic(cfg, old(World()), topic, key, f)
    {
      hide M.SendAll, Select;
      M.NewTopicKeepsStore(cfg, World(), topic, key, f);
      if !cfg.validTopic(topic) {
        return M.InvalidTopic;
      }
      if f(Encrypt) {
        return M.Internal;
      }
      var protectedKey := cfg.lib.encrypt(cfg.dbKey, key);
      var tx := db.BeginTx(f(BeginTx));
      if tx == null {
        return M.Internal;
      }
      var err := tx.InsertTopicKey(topic, protectedKey, f);
      if err.Some? {
        return M.Internal; // the transaction is rolled back
      }
      if f(Build) {
        return M.Internal;
      }
      var count := tx.CountClientsForTopic(topic, f(CountRows), f(CountLost));
      if count.Err? {
        return M.Internal;
      }
      var committed := tx.CommitTx(db, f(CommitTx));
      if !committed {
        return M.Internal;
      }
      SendCommandToTopicClients(SetTopicKey(topic, key), topic, count.value, f);
      if f(Subscribe) {
        return M.Internal;
      }
      monitored := monitored + {topic};
      return M.Done;
    }

    method RemoveTopic(topic: string, f: Faults) returns (status: M.Status)
      requires Valid()
      modifies this, db
      ensures Valid() && (World(), status) == M.RemoveTopic(cfg, old(World()), topic, f)
    {
      M.ClientCallsKeepStore(cfg, World(), "", [], [], topic, f);
      if !f(Unsubscribe) {
        monitored := monitored - {topic};
      }
      var err := db.DeleteTopicKey(topic, f);
      return if err.Some? then Of(err.value, M.TopicNotFound) else M.Done;
    }

    // ---- Client-topic links

    method NewTopicClient(id: Bytes, topic: string, f: Faults) returns (status: M.Status)
      requires Valid()
      modifies this, db
      ensures Valid() && (World(), status) == M.NewTopicClient(cfg, old(World()), id, topic, f)
    {
      M.NewTopicClientKeepsStore(cfg, World(), id, topic, f);
      var client := db.GetClientByID(id, f(ReadClient));
      if client.Err? {
        return Of(client.error, M.ClientNotFound);
      }
      var topicKey := db.GetTopicKey(topic, f(ReadTopic));
      if topicKey.Err? {
        return Of(topicKey.error, M.TopicNotFound);
      }
      var clearKey := cfg.lib.decrypt(cfg.dbKey, topicKey.value.key);
      if clearKey.None? || f(Build) {
        return M.Internal;
      }
      var published := SendCommandToClient(SetTopicKey(topicKey.value.topic, clearKey.value), client.value, f);
      if !published {
        return M.Internal;
      }
      var err := db.LinkClientTopic(client.value, topicKey.value, f);
      if err.Some? {
        return M.Internal;
      }
      events := events + [M.ClientSubscribed(client.value.name, topic)];
      return M.Done;
    }

    method RemoveTopicClient(id: Bytes, topic: string, f: Faults) returns (status: M.Status)
      requires Valid()
      modifies this, db
      ensures Valid() && (World(), status) == M.RemoveTopicClient(cfg, old(World()), id, topic, f)
    {
      M.RemoveTopicClientKeepsStore(cfg, World(), id, topic, f);
      var client := db.GetClientByID(id, f(ReadClient));
      if client.Err? {
        return Of(client.error, M.ClientNotFound);
      }
      var topicKey := db.GetTopicKey(topic, f(ReadTopic));
      if topicKey.Err? {
        return Of(topicKey.error, M.TopicNotFound);
      }
      if f(Build) {
        return M.Internal;
      }
      var published := SendCommandToClient(Command.RemoveTopic(topicKey.value.topic), client.value, f);
      if !published {
        return M.Internal;
      }
      var err := db.UnlinkClientTopic(client.value, topicKey.value, f);
      if err.Some? {
        return M.Internal;
      }
      events := events + [M.ClientUnsubscribed(client.value.name, topic)];
      return M.Done;
    }

    // ---- Calls that send one command

    method SendOne(id: Bytes, cmd: Command, f: Faults) returns (status: M.Status)
      requires Valid()
      modifies this`sent
      ensures (World(), status) == M.SendOne(cfg, old(World()), id, cmd, f)
    {
      var client := db.GetClientByID(id, f(ReadTarget));
      if client.Err? {
        return Of(client.error, M.ClientNotFound);
      }
      if f(Build) {
        return M.Internal;
      }
      var published := SendCommandToClient(cmd, client.value, f);
      return if published then M.Done else M.Internal;
    }

    method ResetClient(id: Bytes, f: Faults) returns (status: M.Status)
      requires Valid()
      modifies this`sent
      ensures Valid() && (World(), status) == M.ResetClient(cfg, old(World()), id, f)
    {
      status := SendOne(id, ResetTopics, f);
    }

    method SendClientPubKey(source: Bytes, target: Bytes, f: Faults) returns (status: M.Status)
      requires Valid()
      modifies this`sent
      ensures Valid() && (World(), status) == M.SendClientPubKey(cfg, old(World()), source, target, f)
    {
      if !cfg.pubKeyMode {
        return M.InvalidCryptoMode;
      }
      var client := db.GetClientByID(source, f(ReadClient));
      if client.Err? {
        return Of(client.error, M.ClientNotFound);
      }
      var receiver := db.GetClientByID(target, f(ReadTarget));
      if receiver.Err? {
        return Of(receiver.error, M.ClientNotFound);
      }
      var clearKey := cfg.lib.decrypt(cfg.dbKey, client.value.key);
      if clearKey.None? || f(Build) {
        return M.Internal;
      }
      var published := SendCommandToClient(SetPubKey(clearKey.value, client.value.name), receiver.value, f);
      return if published then M.Done else M.Internal;
    }

    method RemoveClientPubKey(source: Bytes, target: Bytes, f: Faults) returns (status: M.Status)
      requires Valid()
      modifies this`sent
      ensures Valid() && (World(), status) == M.RemoveClientPubKey(cfg, old(World()), source, target, f)
    {
      if !cfg.pubKeyMode {
        return M.InvalidCryptoMode;
      }
      var client := db.GetClientByID(source, f(ReadClient));
      if client.Err? {
        return Of(client.error, M.ClientNotFound);
      }
      status := SendOne(target, RemovePubKey(client.value.name), f);
    }

    method ResetClientPubKeys(target: Bytes, f: Faults) returns (status: M.Status)
      requires Valid()
      modifies this`sent
      ensures Valid() && (World(), status) == M.ResetClientPubKeys(cfg, old(World()), target, f)
    {
      if !cfg.pubKeyMode {
        return M.InvalidCryptoMode;
      }
      status := SendOne(target, ResetPubKeys, f);
    }

    // ---- Client-client links

    method LinkClient(source: Bytes, target: Bytes, f: Faults) returns (status: M.Status)
      requires Valid()
      modifies this, db
      ensures Valid() && (World(), status) == M.LinkClient(cfg, old(World()), source, target, f)
    {
      M.PeerCallsKeepStore(cfg, World(), source, target, f);
      var client := db.GetClientByID(source, f(ReadClient));
      if client.Err? {
        return Of(client.error, M.ClientNotFound);
      }
      var receiver := db.GetClientByID(target, f(ReadTarget));
      if receiver.Err? {
        return Of(receiver.error, M.ClientNotFound);
      }
      var err := db.LinkClient(client.value, receiver.value, f);
      return if err.Some? then M.Internal else M.Done;
    }

    method UnlinkClient(source: Bytes, target: Bytes, f: Faults) returns (status: M.Status)
      requires Valid()
      modifies this, db
      ensures Valid() && (World(), status) == M.UnlinkClient(cfg, old(World()), source, target, f)
    {
      M.PeerCallsKeepStore(cfg, World(), source, target, f);
      var client := db.GetClientByID(source, f(ReadClient));
      if client.Err? {
        return Of(client.error, M.ClientNotFound);
      }
      var receiver := db.GetClientByID(target, f(ReadTarget));
      if receiver.Err? {
        return Of(receiver.error, M.ClientNotFound);
      }
      var err := db.UnlinkClient(client.value, receiver.value, f);
      return if err.Some? then M.Internal else M.Done;
    }

    // ---- The C2 key

    /**
     * One page of all clients, once it could be read. A page shorter than the batch is the last one
     * the loop comes to; a page as long as the batch leaves room for the next.
     */
    method SendFullPage(cmd: Command, page: seq<Client>, f: Faults,
                        ghost start: M.World, ghost all: seq<Client>, ghost offset: nat, ghost done: seq<Client>)
      returns (ghost done': seq<Client>)
      requires cfg.c2Batch > 0 && offset <= |all| && (cfg.c2Batch > QUERY_LIMIT ==> offset == 0)
      requires page == Page(all, offset, Clamped(cfg.c2Batch))
      requires done == all[..offset] && Tried(start, cmd, done, f)
      modifies this`sent
      ensures Tried(start, cmd, done', f)
      ensures |page| < cfg.c2Batch ==> done' == M.C2Targets(all, cfg.c2Batch)
      ensures |page| >= cfg.c2Batch ==>
        cfg.c2Batch <= QUERY_LIMIT && offset + cfg.c2Batch <= |all| && done' == all[..offset + cfg.c2Batch]
    {
      SendCommandToEach(cmd, page, f, start, done);
      done' := done + page;
    }

    /**
     * The fan-out of NewC2Key, which asks again for a page it could not read. `readFails` says which
     * attempts fail; it lets every attempt from `patience` on succeed.
     */
    method SendToAllClients(cmd: Command, f: Faults, readFails: nat -> bool, ghost patience: nat)
      requires cfg.c2Batch > 0 && db.Valid() && forall k :: k >= patience ==> !readFails(k)
      modifies this`sent
      ensures sent == M.SendAll(cfg, old(World()), cmd, M.C2Targets(AllClients(db.tables), cfg.c2Batch), f).sent
    {
      SendAllPages(cmd, f, readFails, patience, World(), AllClients(db.tables));
    }

    method SendAllPages(cmd: Command, f: Faults, readFails: nat -> bool, ghost patience: nat,
                        ghost start: M.World, ghost all: seq<Client>)
      requires cfg.c2Batch > 0 && db.Valid() && forall k :: k >= patience ==> !readFails(k)
      requires all == AllClients(db.tables) && Tried(start, cmd, [], f)
      modifies this`sent
      ensures Tried(start, cmd, M.C2Targets(all, cfg.c2Batch), f)
    {
      hide *;
      ghost var done: seq<Client> := [];
      var offset: nat, attempt: nat := 0, 0;
      while true
        invariant offset <= |all| && (cfg.c2Batch > QUERY_LIMIT ==> offset == 0)
        invariant done == all[..offset] && Tried(start, cmd, done, f)
        decreases if attempt < patience then patience - attempt else 0, |all| - offset
      {
        var page := db.GetClientsRange(offset, cfg.c2Batch, readFails(attempt));
        attempt := attempt + 1;
        if page.Err? {
          continue;
        }
        done := SendFullPage(cmd, page.value, f, start, all, offset, done);
        if |page.value| < cfg.c2Batch {
          break;
        }
        offset := offset + cfg.c2Batch;
      }
    }

    lemma TargetsAreRows()
      requires db.Valid()
      ensures forall c :: c in M.C2Targets(AllClients(db.tables), cfg.c2Batch) ==>
        c.id in db.tables.clients && c == Row(db.tables, c.id)
    {
    }

    /** The rotation's file steps that decide how far NewC2Key gets. */
    predicate Commits(newKey: Bytes, d: Disk) {
      !d.openFails(AtCommit) && d.WritesWhole(AtCommit, newKey)
    }

    /** Publishes the new public key, under the key still in memory. */
    method PublishNewC2Key(newPublic: Bytes, f: Faults, readFails: nat -> bool, ghost patience: nat)
      requires cfg.c2Batch > 0 && db.Valid() && forall k :: k >= patience ==> !readFails(k)
      modifies this`sent
      ensures var targets := M.C2Targets(AllClients(db.tables), cfg.c2Batch);
        sent == M.SendAll(cfg, old(World()), SetC2Key(newPublic), targets, f).sent
      ensures SealedUnder(cfg, db.tables, e4Key.c2PrivKey, SetC2Key(newPublic), sent, |old(sent)|)
    {
      TargetsAreRows();
      SendAllSealed(cfg, World(), SetC2Key(newPublic), M.C2Targets(AllClients(db.tables), cfg.c2Batch), f);
      SendToAllClients(SetC2Key(newPublic), f, readFails, patience);
    }

    /** Commits the transaction, or rolls it back. */
    method FinishRotation(tx: C2KeyRotationTx, d: Disk) returns (ok: bool)
      requires tx.e4Key == e4Key && tx.Pending()
      modifies tx, e4Key
      ensures e4Key.Valid() && e4Key.phase.Idle? && old(e4Key.run) <= e4Key.run
      ensures ok == Commits(tx.newC2PrivateKey, d)
      ensures ok ==>
        && e4Key.c2PrivKey == tx.newC2PrivateKey && e4Key.c2PubKey == tx.newC2PublicKey
        && e4Key.files == old(e4Key.files)[e4Key.keyPath := tx.newC2PrivateKey]
        && e4Key.replaced == old(e4Key.replaced) + [(tx.backupPath, old(e4Key.c2PrivKey))]
      ensures !ok ==>
        && e4Key.c2PrivKey == old(e4Key.c2PrivKey) && e4Key.c2PubKey == old(e4Key.c2PubKey)
        && e4Key.replaced == old(e4Key.replaced)
      ensures e4Key.files.Keys <= old(e4Key.files).Keys
    {
      ok := tx.Commit(d);
      if !ok {
        var _ := tx.Rollback(d);
      }
    }

    method NewC2Key(timestamp: string, newKey: Bytes, f: Faults, d: Disk, readFails: nat -> bool, ghost patience: nat)
      returns (status: M.Status)
      requires Valid() && |newKey| == cfg.lib.keyLen && forall k :: k >= patience ==> !readFails(k)
      modifies this`sent, e4Key
      ensures Valid() && old(e4Key.run) <= e4Key.run
      ensures (World(), status)
           == M.NewC2Key(cfg, old(World()), newKey, f, old(e4Key.Begins(timestamp, d)), Commits(newKey, d))
      // done: memory and key file hold the new key, and the old one joins the history of backups
      ensures status == M.Done ==>
        && e4Key.c2PrivKey == newKey && e4Key.c2PubKey == cfg.lib.C2Public(newKey)
        && e4Key.keyPath in e4Key.files && e4Key.files[e4Key.keyPath] == newKey
        && e4Key.replaced == old(e4Key.replaced) + [(BackupPath(e4Key.keyPath, timestamp), old(e4Key.c2PrivKey))]
      // the only file that may be new is the backup of this time
      ensures e4Key.files.Keys <= old(e4Key.files).Keys + {BackupPath(e4Key.keyPath, timestamp)}
      // not done: the key pair in memory is the old one
      ensures status != M.Done ==>
        && e4Key.c2PrivKey == old(e4Key.c2PrivKey) && e4Key.c2PubKey == old(e4Key.c2PubKey)
        && e4Key.replaced == old(e4Key.replaced)
      // whatever was published carries the new public key, protected with the old private key
      ensures SealedUnder(cfg, db.tables, old(e4Key.c2PrivKey), SetC2Key(cfg.lib.C2Public(newKey)), sent, |old(sent)|)
    {
      hide M.SendAll, M.C2Targets, AllClients, IsRun, NamesUnique, RowsNamed, LinksLive;
      if !cfg.pubKeyMode {
        return M.InvalidCryptoMode;
      }
      var tx := e4Key.NewC2KeyRotationTx(timestamp, newKey, d);
      if tx == null {
        return M.Internal;
      }
      if f(Build) {
        var _ := tx.Rollback(d);
        return M.Internal;
      }
      PublishNewC2Key(tx.newC2PublicKey, f, readFails, patience);
      var committed := FinishRotation(tx, d);
      return if committed then M.Done else M.Internal;
    }

    // ---- Messages

    method ProtectMessage(topic: string, data: Bytes, f: Faults) returns (r: Result<Bytes, M.Status>)
      ensures r == M.ProtectMessage(cfg, World(), topic, data, f)
    {
      var topicKey := db.GetTopicKey(topic, f(ReadTopic));
      if topicKey.Err? {
        return Err(Of(topicKey.error, M.TopicNotFound));
      }
      var clearKey := cfg.lib.decrypt(cfg.dbKey, topicKey.value.key);
      if clearKey.None? || f(Encrypt) {
        return Err(M.Internal);
      }
      return Ok(cfg.lib.protect(clearKey.value, data));
    }

    method UnprotectMessage(topic: string, data: Bytes, f: Faults) returns (r: Result<Bytes, M.Status>)
      ensures r == M.UnprotectMessage(cfg, World(), topic, data, f)
    {
      var topicKey := db.GetTopicKey(topic, f(ReadTopic));
      if topicKey.Err? {
        return Err(Of(topicKey.error, M.TopicNotFound));
      }
      var clearKey := cfg.lib.decrypt(cfg.dbKey, topicKey.value.key);
      if clearKey.None? {
        return Err(M.Internal);
      }
      var clear := cfg.lib.unprotect(clearKey.value, data);
      if clear.None? {
        return Err(M.Internal);
      }
      return Ok(clear.value);
    }
  }

  /**
   * What rotations at different times have to do with each other: if nothing fails and no backup was made
   * at either time before, both are done, one on top of the other.
   */
  method RotateTwice(s: E4Service, first: string, firstKey: Bytes, second: string, secondKey: Bytes, f: Faults, d: Disk,
                     ghost times: set<string>)
    returns (a: M.Status, b: M.Status)
    requires s.Valid() && s.cfg.pubKeyMode && !f(Build)
    requires |firstKey| == |secondKey| == s.cfg.lib.keyLen && d.Works(firstKey)
    requires BackedUpAt(s.e4Key.keyPath, s.e4Key.files, times)
    requires first !in times && second !in times && first != second
    modifies s`sent, s.e4Key
    ensures s.Valid() && a == M.Done && b == M.Done && s.e4Key.c2PrivKey == secondKey
    ensures s.e4Key.replaced == old(s.e4Key.replaced)
                                  + [(BackupPath(s.e4Key.keyPath, first), old(s.e4Key.c2PrivKey))]
                                  + [(BackupPath(s.e4Key.keyPath, second), firstKey)]
    ensures BackedUpAt(s.e4Key.keyPath, s.e4Key.files, times + {first} + {second})
  {
    hide IsRun, Consistent, M.SendAll, M.C2Targets, AllClients, SealedUnder, BackedUpAt;
    s.e4Key.NowIsSane();
    s.e4Key.BeginsAtNewTimes(times, first, d);
    ghost var before := s.e4Key.files;
    a := s.NewC2Key(first, firstKey, f, d, _ => false, 0);
    OneMoreBackup(s.e4Key.keyPath, before, times, first, s.e4Key.files);
    s.e4Key.BeginsAtNewTimes(times + {first}, second, d);
    ghost var between := s.e4Key.files;
    b := s.NewC2Key(second, secondKey, f, d, _ => false, 0);
    OneMoreBackup(s.e4Key.keyPath, between, times + {first}, second, s.e4Key.files);
  }
}
