/** Messages protected under a topic's key can be read back as long as the topic keeps its key. */
module Messages {
  import opened Wrappers
  import opened Crypto
  import opened Faults
  import opened Store
  import opened Model

  predicate SparesTopic(call: Call, topic: string) {
    match call
    case CallNewTopic(other, _) => other != topic
    case CallRemoveTopic(other) => other != topic
    case _ => true
  }

  predicate AllSpare(calls: seq<(Call, Faults)>, topic: string) {
    forall i :: 0 <= i < |calls| ==> SparesTopic(calls[i].0, topic)
  }

  predicate SameKey(w: World, w': World, topic: string) {
    topic in w.tables.topics && topic in w'.tables.topics && w.tables.topics[topic] == w'.tables.topics[topic]
  }

  lemma CallSparesKey(cfg: Config, w: World, call: Call, f: Faults, topic: string)
    requires cfg.Usable() && NamesUnique(w.tables) && SparesTopic(call, topic) && topic in w.tables.topics
    ensures SameKey(w, Perform(cfg, w, call, f).0, topic)
  {
  }

  lemma {:induction false} RunSparesKey(cfg: Config, w: World, calls: seq<(Call, Faults)>, topic: string)
    requires cfg.Usable() && Consistent(cfg.lib, w.tables) && AllSpare(calls, topic) && topic in w.tables.topics
    ensures SameKey(w, Run(cfg, w, calls), topic)
  {
    if calls != [] {
      var front, last := calls[..|calls| - 1], calls[|calls| - 1];
      RunSparesKey(cfg, w, front, topic);
      CallSparesKey(cfg, Run(cfg, w, front), last.0, last.1, topic);
    }
  }

  /** The round trip, with any calls in between that do not create or remove the topic. */
  lemma MessageRoundTrip(cfg: Config, w: World, calls: seq<(Call, Faults)>, topic: string, data: Bytes,
                         f: Faults, g: Faults)
    requires cfg.Usable() && Consistent(cfg.lib, w.tables) && cfg.lib.UnprotectsOwn()
    requires AllSpare(calls, topic)
    requires ProtectMessage(cfg, w, topic, data, f).Ok? && !g(ReadTopic)
    ensures var message := ProtectMessage(cfg, w, topic, data, f).value;
      UnprotectMessage(cfg, Run(cfg, w, calls), topic, message, g) == Ok(data)
  {
    RunSparesKey(cfg, w, calls, topic);
    var key := cfg.lib.decrypt(cfg.dbKey, w.tables.topics[topic]).value;
    assert cfg.lib.unprotect(key, cfg.lib.protect(key, data)) == Some(data);
  }
}
