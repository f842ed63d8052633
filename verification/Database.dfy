/** The database object of internal/models/database.go, over the tables of module Store. */
module Database {
  import opened Wrappers
  import opened Pages
  import opened Crypto
  import opened Faults
  import opened Store

  class GormDB {
    const lib: Library
    var tables: Tables

    constructor (lib: Library, tables: Tables)
      ensures this.lib == lib && this.tables == tables
    {
      this.lib, this.tables := lib, tables;
    }

    /** What the unique name index gives every caller. */
    predicate Valid()
      reads this
    {
      NamesUnique(tables)
    }

    method InsertClient(name: string, id: Bytes, protectedKey: Bytes, f: Faults) returns (err: Option<DbError>)
      modifies this
      ensures (tables, err) == Store.InsertClient(lib, old(tables), name, id, protectedKey, f)
    {
      if name != "" {
        if id != lib.hashAlias(name) {
          return Some(Failed);
        }
      } else if |id| != lib.idLen {
        return Some(Failed);
      }
      var newRecord := id !in tables.clients || f(Lookup);
      if newRecord {
        if f(WriteRow) || id in tables.clients || NameTaken(tables, name) {
          return Some(Failed);
        }
        tables := tables.(clients := tables.clients[id := ClientRow(name, protectedKey)]);
      } else {
        if f(WriteRow) {
          return Some(Failed);
        }
        var client := tables.clients[id].(key := protectedKey);
        tables := tables.(clients := tables.clients[id := client]);
      }
      return None;
    }

    method InsertTopicKey(topic: string, protectedKey: Bytes, f: Faults) returns (err: Option<DbError>)
      modifies this
      ensures (tables, err) == Store.InsertTopicKey(old(tables), topic, protectedKey, f)
    {
      var newRecord := topic !in tables.topics || f(Lookup);
      if f(WriteRow) || (newRecord && topic in tables.topics) {
        return Some(Failed);
      }
      tables := tables.(topics := tables.topics[topic := protectedKey]);
      return None;
    }

    method GetClientByID(id: Bytes, fails: bool) returns (r: Result<Client, DbError>)
      ensures r == if fails then Err(Failed) else if id !in tables.clients then Err(NotFound) else Ok(Row(tables, id))
    {
      if fails {
        return Err(Failed);
      }
      if id !in tables.clients {
        return Err(NotFound);
      }
      return Ok(Row(tables, id));
    }

    method GetTopicKey(topic: string, fails: bool) returns (r: Result<Topic, DbError>)
      ensures r == if fails then Err(Failed) else if topic !in tables.topics then Err(NotFound)
                   else Ok(Topic(topic, tables.topics[topic]))
    {
      if fails {
        return Err(Failed);
      }
      if topic !in tables.topics {
        return Err(NotFound);
      }
      return Ok(Topic(topic, tables.topics[topic]));
    }

    /** One transaction: the client's topic links go first, then its row; its peer links cascade. */
    method DeleteClientByID(id: Bytes, f: Faults) returns (err: Option<DbError>)
      modifies this
      ensures (tables, err) == DeleteClient(old(tables), id, f)
    {
      var found := GetClientByID(id, f(Lookup));
      if found.Err? {
        return Some(found.error);
      }
      var tx := tables;
      if f(Clear) {
        return Some(Failed);
      }
      tx := tx.(links := set l | l in tx.links && l.0 != id);
      if f(DeleteRow) {
        return Some(Failed);
      }
      tx := tx.(clients := tx.clients - {id}, peers := set p | p in tx.peers && p.0 != id && p.1 != id);
      if f(Commit) {
        return Some(Failed);
      }
      tables := tx;
      return None;
    }

    method DeleteTopicKey(topic: string, f: Faults) returns (err: Option<DbError>)
      modifies this
      ensures (tables, err) == DeleteTopic(old(tables), topic, f)
    {
      var found := GetTopicKey(topic, f(Lookup));
      if found.Err? {
        return Some(found.error);
      }
      var tx := tables;
      if f(Clear) {
        return Some(Failed);
      }
      tx := tx.(links := set l | l in tx.links && l.1 != topic);
      if f(DeleteRow) {
        return Some(Failed);
      }
      tx := tx.(topics := tx.topics - {topic});
      if f(Commit) {
        return Some(Failed);
      }
      tables := tx;
      return None;
    }

    method LinkClientTopic(client: Client, topicKey: Topic, f: Faults) returns (err: Option<DbError>)
      modifies this
      ensures (tables, err) == Store.LinkClientTopic(old(tables), client.id, topicKey.topic, f)
    {
      if client.id !in tables.clients || topicKey.topic !in tables.topics {
        return Some(Failed);
      }
      var tx := tables.(links := tables.links + {(client.id, topicKey.topic)});
      if f(Join) || f(Commit) {
        return Some(Failed);
      }
      tables := tx;
      return None;
    }

    /** The error of re-reading the client is looked at only when the client is gone. */
    method UnlinkClientTopic(client: Client, topicKey: Topic, f: Faults) returns (err: Option<DbError>)
      modifies this
      ensures (tables, err) == Store.UnlinkClientTopic(old(tables), client.id, topicKey.topic, f)
    {
      var tx := tables.(links := tables.links - {(client.id, topicKey.topic)});
      if f(Join) {
        return Some(Failed);
      }
      if client.id !in tx.clients {
        return Some(Failed);
      }
      if topicKey.topic !in tx.topics || f(Recheck) {
        return Some(Failed);
      }
      if f(Commit) {
        return Some(Failed);
      }
      tables := tx;
      return None;
    }

    method LinkClient(source: Client, target: Client, f: Faults) returns (err: Option<DbError>)
      modifies this
      ensures (tables, err) == Store.LinkClient(old(tables), source.id, target.id, f)
    {
      if source.id !in tables.clients || target.id !in tables.clients || f(Join) {
        return Some(Failed);
      }
      tables := tables.(peers := tables.peers + {(target.id, source.id)});
      return None;
    }

    method UnlinkClient(source: Client, target: Client, f: Faults) returns (err: Option<DbError>)
      modifies this
      ensures (tables, err) == Store.UnlinkClient(old(tables), source.id, target.id, f)
    {
      if f(Join) {
        return Some(Failed);
      }
      tables := tables.(peers := tables.peers - {(target.id, source.id)});
      return None;
    }

    // ---- Queries

    method CountClients(fails: bool) returns (r: Result<nat, DbError>)
      requires Valid()
      ensures r == if fails then Err(Failed) else Ok(|AllClients(tables)|)
    {
      return if fails then Err(Failed) else Ok(|tables.clients.Keys|);
    }

    method CountTopicKeys(fails: bool) returns (r: Result<nat, DbError>)
      ensures r == if fails then Err(Failed) else Ok(|AllTopics(tables)|)
    {
      return if fails then Err(Failed) else Ok(|tables.topics.Keys|);
    }

    /** The count of an association drops its error and says 0. */
    method CountClientsForTopic(topic: string, fails: bool, lost: bool) returns (r: Result<nat, DbError>)
      requires Valid()
      ensures r == if fails then Err(Failed) else if topic !in tables.topics then Err(NotFound)
                   else Ok(Counted(|TopicClients(tables, topic)|, lost))
    {
      if fails {
        return Err(Failed);
      }
      if topic !in tables.topics {
        return Err(NotFound);
      }
      return Ok(if lost then 0 else |ClientsOf(tables, topic)|);
    }

    method CountTopicsForClientByID(id: Bytes, fails: bool, lost: bool) returns (r: Result<nat, DbError>)
      ensures r == if fails then Err(Failed) else if id !in tables.clients then Err(NotFound)
                   else Ok(Counted(|ClientTopics(tables, id)|, lost))
    {
      if fails {
        return Err(Failed);
      }
      if id !in tables.clients {
        return Err(NotFound);
      }
      return Ok(if lost then 0 else |TopicsOf(tables, id)|);
    }

    method CountLinkedClients(id: Bytes, fails: bool, lost: bool) returns (r: Result<nat, DbError>)
      requires Valid()
      ensures r == if fails then Err(Failed) else if id !in tables.clients then Err(NotFound)
                   else Ok(Counted(|LinkedClients(tables, id)|, lost))
    {
      if fails {
        return Err(Failed);
      }
      if id !in tables.clients {
        return Err(NotFound);
      }
      return Ok(if lost then 0 else |PeersOf(tables, id)|);
    }

    method GetClientsRange(offset: nat, count: nat, fails: bool) returns (r: Result<seq<Client>, DbError>)
      requires Valid()
      ensures r == if fails then Err(Failed) else Ok(Page(AllClients(tables), offset, Clamped(count)))
    {
      var limit := count;
      if limit > QUERY_LIMIT {
        limit := QUERY_LIMIT;
      }
      if fails {
        return Err(Failed);
      }
      return Ok(Page(AllClients(tables), offset, limit));
    }

    method GetTopicsRange(offset: nat, count: nat, fails: bool) returns (r: Result<seq<string>, DbError>)
      ensures r == if fails then Err(Failed) else Ok(Page(AllTopics(tables), offset, Clamped(count)))
    {
      var limit := count;
      if limit > QUERY_LIMIT {
        limit := QUERY_LIMIT;
      }
      if fails {
        return Err(Failed);
      }
      return Ok(Page(AllTopics(tables), offset, limit));
    }

    method GetClientsForTopic(topic: string, offset: nat, count: nat, fails: bool)
      returns (r: Result<seq<Client>, DbError>)
      requires Valid()
      ensures r == if fails then Err(Failed) else if topic !in tables.topics then Err(NotFound)
                   else Ok(Page(TopicClients(tables, topic), offset, count))
    {
      if fails {
        return Err(Failed);
      }
      if topic !in tables.topics {
        return Err(NotFound);
      }
      return Ok(Page(TopicClients(tables, topic), offset, count));
    }

    method GetTopicsForClientByID(id: Bytes, offset: nat, count: nat, fails: bool)
      returns (r: Result<seq<string>, DbError>)
      ensures r == if fails then Err(Failed) else if id !in tables.clients then Err(NotFound)
                   else Ok(Page(ClientTopics(tables, id), offset, count))
    {
      if fails {
        return Err(Failed);
      }
      if id !in tables.clients {
        return Err(NotFound);
      }
      return Ok(Page(ClientTopics(tables, id), offset, count));
    }

    method GetLinkedClientsForClientByID(id: Bytes, offset: nat, count: nat, fails: bool)
      returns (r: Result<seq<Client>, DbError>)
      requires Valid()
      ensures r == if fails then Err(Failed) else if id !in tables.clients then Err(NotFound)
                   else Ok(Page(LinkedClients(tables, id), offset, count))
    {
      if fails {
        return Err(Failed);
      }
      if id !in tables.clients {
        return Err(NotFound);
      }
      return Ok(Page(LinkedClients(tables, id), offset, count));
    }

    // ---- Transactions across calls

    /** A transaction works on the tables as they are now and is not seen until it is committed. */
    method BeginTx(fails: bool) returns (tx: GormDB?)
      ensures tx != null <==> !fails
      ensures tx != null ==> fresh(tx) && tx.lib == lib && tx.tables == tables
    {
      tx := null;
      if !fails {
        tx := new GormDB(lib, tables);
      }
    }

    method CommitTx(parent: GormDB, fails: bool) returns (ok: bool)
      modifies parent
      ensures ok == !fails
      ensures parent.tables == if ok then old(tables) else old(parent.tables)
    {
      ok := !fails;
      if ok {
        parent.tables := tables;
      }
    }
  }
}
