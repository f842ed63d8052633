/**
 * Runs of the whole system, over the library of module Assumptions: one to which everything the main result
 * says applies, and one for every way in which module Boundaries says devices and store can part.
 */
module Scenarios {
  import opened Wrappers
  import opened Crypto
  import opened Faults
  import opened Store
  import opened Model
  import opened Devices
  import opened Agreement
  import opened Assumptions
  import opened Boundaries

  const START_KEY: Bytes := [7]
  const NEXT_KEY: Bytes := [8]
  const DEVICE_KEY: Bytes := [9]
  const NOTHING_FAILS: Faults := _ => false
  const COMMIT_FAILS: Faults := step => step == Commit
  const ROW_FAILS: Faults := step => step == WriteRow
  const COUNT_IS_LOST: Faults := step => step == CountLost

  ghost function Setup(c2Batch: nat): Config {
    Config(Simple(), [], true, true, 500, 500, c2Batch, _ => true)
  }

  /** A calm run from the empty server that ends in the state. */
  ghost predicate Reaches(cfg: Config, inputs: seq<Input>, s: System)
    requires cfg.Usable()
  {
    && cfg.lib.Sound() && CalmRun(cfg, Fresh(START_KEY), inputs)
    && s == AdvanceAll(cfg, Fresh(START_KEY), inputs) && Agree(cfg, s)
  }

  lemma StartIsReached(cfg: Config)
    requires cfg.Usable() && cfg.lib.Sound()
    ensures Reaches(cfg, [], Fresh(START_KEY))
  {
  }

  lemma OneMore(cfg: Config, inputs: seq<Input>, s: System, input: Input)
    requires cfg.Usable() && Reaches(cfg, inputs, s) && Admissible(cfg, s, input) && Calm(cfg, s, input)
    ensures Reaches(cfg, inputs + [input], Advance(cfg, s, input))
  {
    hide Advance, Admissible, Calm;
    assert (inputs + [input])[..|inputs|] == inputs;
    RunsAgree(cfg, Fresh(START_KEY), inputs + [input]);
  }

  // ---- What single calls come to when nothing fails

  lemma AgreeingNames(cfg: Config, s: System)
    requires Agree(cfg, s)
    ensures NamesUnique(s.world.tables)
  {
  }

  function Registration(cfg: Config, name: string): Input {
    var key := cfg.lib.StoredHalf(cfg.pubKeyMode, DEVICE_KEY);
    Input(CallNewClient(name, cfg.lib.hashAlias(name), key), NOTHING_FAILS, DEVICE_KEY)
  }

  lemma Registers(cfg: Config, s: System, name: string)
    requires cfg.Usable() && cfg.lib.Sound() && Agree(cfg, s) && name != ""
    requires cfg.lib.hashAlias(name) !in s.world.tables.clients
    requires cfg.lib.ValidKey(cfg.pubKeyMode, cfg.lib.StoredHalf(cfg.pubKeyMode, DEVICE_KEY))
    ensures var input := Registration(cfg, name);
      var id, s' := cfg.lib.hashAlias(name), Advance(cfg, s, input);
      && Admissible(cfg, s, input) && Calm(cfg, s, input)
      && s'.world.tables.clients.Keys == s.world.tables.clients.Keys + {id}
      && s'.world.tables.topics == s.world.tables.topics && s'.world.tables.links == s.world.tables.links
      && s'.world.c2Secret == s.world.c2Secret && s'.drawn == s.drawn
      && id in s'.devices && s'.devices[id].key == DEVICE_KEY
  {
    hide ClientsAgree, LinksAgree, KeysKnown, Consistent, Perform;
    var id := cfg.lib.hashAlias(name);
    assert |id| == cfg.lib.idLen;
    var key := cfg.lib.StoredHalf(cfg.pubKeyMode, DEVICE_KEY);
    InsertsNamed(cfg, s.world, name, key);
    AgreeingNames(cfg, s);
    var s' := Advance(cfg, s, Registration(cfg, name));
    assert s'.world.sent[|s.world.sent|..] == [];
  }

  lemma InsertsNamed(cfg: Config, w: World, name: string, key: Bytes)
    requires cfg.Usable() && cfg.lib.HashesAreIds() && Consistent(cfg.lib, w.tables) && name != ""
    requires cfg.lib.hashAlias(name) !in w.tables.clients && cfg.lib.ValidKey(cfg.pubKeyMode, key)
    ensures var id := cfg.lib.hashAlias(name);
      && ValidateE4NameOrIDPair(cfg.lib, name, id) == Some(id)
      && Perform(cfg, w, CallNewClient(name, id, key), NOTHING_FAILS).0 ==
           w.(tables := w.tables.(clients := w.tables.clients[id := ClientRow(name, cfg.lib.encrypt(cfg.dbKey, key))]))
  {
    var t := w.tables;
    assert |cfg.lib.hashAlias(name)| == cfg.lib.idLen;
    assert forall other :: other in t.clients ==> NameFits(cfg.lib, t.clients[other].name, other);
    assert !NameTaken(t, name);
  }

  function Creation(topic: string, key: Bytes, f: Faults): Input {
    Input(CallNewTopic(topic, key), f, [])
  }

  lemma Creates(cfg: Config, s: System, topic: string, key: Bytes)
    requires cfg.Usable() && cfg.lib.Sound() && Agree(cfg, s) && key !in s.drawn && cfg.validTopic(topic)
    ensures var input := Creation(topic, key, NOTHING_FAILS);
      var s' := Advance(cfg, s, input);
      && Admissible(cfg, s, input) && Calm(cfg, s, input)
      && s'.world.tables.clients == s.world.tables.clients && s'.world.tables.links == s.world.tables.links
      && s'.world.tables.topics.Keys == s.world.tables.topics.Keys + {topic}
      && s'.world.c2Secret == s.world.c2Secret && s'.drawn == s.drawn + {key}
      && s'.devices.Keys == s.devices.Keys
  {
    hide ClientsAgree, LinksAgree, KeysKnown, SendAll, TopicTargets;
  }

  function Linking(id: Bytes, topic: string, f: Faults): Input {
    Input(CallNewTopicClient(id, topic), f, [])
  }

  lemma Links(cfg: Config, s: System, id: Bytes, topic: string)
    requires cfg.Usable() && cfg.lib.Sound() && Agree(cfg, s)
    requires id in s.world.tables.clients && topic in s.world.tables.topics
    ensures var input := Linking(id, topic, NOTHING_FAILS);
      var s' := Advance(cfg, s, input);
      && Admissible(cfg, s, input) && Calm(cfg, s, input)
      && s'.world.tables == s.world.tables.(links := s.world.tables.links + {(id, topic)})
      && s'.world.c2Secret == s.world.c2Secret && s'.drawn == s.drawn
      && id in s'.devices && topic in s'.devices[id].topicKeys && !ResetSince(s'.devices[id].log, topic)
  {
    hide LinksAgree, Deliver, Send, Paired, Perform, Obeyed;
    var t := s.world.tables;
    assert ClientAgrees(cfg, s, id);
    var cmd := LinkCommand(cfg, t, topic, true);
    SendObeyed(cfg, s.world, cmd, Row(t, id), NOTHING_FAILS, s.devices);
    LinkIsOneMessage(cfg, s.world, id, topic);
    HeardTheKey(cfg, s, Advance(cfg, s, Linking(id, topic, NOTHING_FAILS)), id, topic);
  }

  lemma LinkIsOneMessage(cfg: Config, w: World, id: Bytes, topic: string)
    requires cfg.Usable() && NamesUnique(w.tables)
    requires id in w.tables.clients && topic in w.tables.topics && TopicKey(cfg, w.tables, topic).Some?
    requires Send(cfg, w, LinkCommand(cfg, w.tables, topic, true), Row(w.tables, id), NOTHING_FAILS).Some?
    ensures var sent := Send(cfg, w, LinkCommand(cfg, w.tables, topic, true), Row(w.tables, id), NOTHING_FAILS).value;
      Perform(cfg, w, CallNewTopicClient(id, topic), NOTHING_FAILS).0 ==
        sent.(tables := w.tables.(links := w.tables.links + {(id, topic)}),
              events := w.events + [ClientSubscribed(w.tables.clients[id].name, topic)])
  {
    hide Send;
  }

  lemma HeardTheKey(cfg: Config, s: System, s': System, id: Bytes, topic: string)
    requires id in s.devices && topic in s.world.tables.topics && TopicKey(cfg, s.world.tables, topic).Some?
    requires Obeyed(s.devices, s'.devices, {id}, LinkCommand(cfg, s.world.tables, topic, true))
    ensures id in s'.devices && topic in s'.devices[id].topicKeys && !ResetSince(s'.devices[id].log, topic)
  {
    ObeyEffect(s.devices[id], LinkCommand(cfg, s.world.tables, topic, true), topic);
  }

  function Rotation(key: Bytes): Input {
    Input(CallNewC2Key(key, true, true), NOTHING_FAILS, [])
  }

  lemma Rotates(cfg: Config, s: System, key: Bytes)
    requires cfg.Usable() && cfg.lib.Sound() && Agree(cfg, s) && cfg.pubKeyMode && ReachesAll(cfg, s.world.tables)
    ensures var input := Rotation(key);
      var s' := Advance(cfg, s, input);
      && Admissible(cfg, s, input) && Calm(cfg, s, input)
      && s'.world.tables == s.world.tables && s'.world.c2Secret == key
      && s'.devices.Keys == s.devices.Keys
      && forall id :: id in s.devices ==> s'.devices[id].topicKeys == s.devices[id].topicKeys
  {
    hide LinksAgree, KeysKnown, Deliver, Perform, Paired;
    NewC2KeyFacts(cfg, s, Rotation(key));
  }

  // ---- A client, a topic, and the link between them

  lemma OneClient(cfg: Config) returns (inputs: seq<Input>, s: System, id: Bytes)
    requires cfg == Setup(cfg.c2Batch) && cfg.Usable()
    ensures Reaches(cfg, inputs, s) && s.world.tables.clients.Keys == {id} && id == Alias("a")
    ensures s.world.tables.topics == map[] && s.world.tables.links == {} && s.drawn == {}
    ensures s.world.c2Secret == START_KEY
    ensures id in s.devices && s.devices[id].key == DEVICE_KEY
  {
    hide Advance, Admissible, Calm, Reaches;
    SimpleIsSound();
    StartIsReached(cfg);
    ReachedAgrees(cfg, [], Fresh(START_KEY));
    Registers(cfg, Fresh(START_KEY), "a");
    OneMore(cfg, [], Fresh(START_KEY), Registration(cfg, "a"));
    inputs, s, id := [] + [Registration(cfg, "a")], Advance(cfg, Fresh(START_KEY), Registration(cfg, "a")), Alias("a");
  }

  lemma ReachedAgrees(cfg: Config, inputs: seq<Input>, s: System)
    requires cfg.Usable() && Reaches(cfg, inputs, s)
    ensures cfg.lib.Sound() && Agree(cfg, s) && CalmRun(cfg, Fresh(START_KEY), inputs)
    ensures s == AdvanceAll(cfg, Fresh(START_KEY), inputs)
  {
  }

  lemma OneTopic(cfg: Config) returns (inputs: seq<Input>, s: System, id: Bytes)
    requires cfg == Setup(cfg.c2Batch) && cfg.Usable()
    ensures Reaches(cfg, inputs, s) && s.world.tables.clients.Keys == {id} && id in s.devices
    ensures s.world.tables.topics.Keys == {"t"} && s.world.tables.links == {} && s.drawn == {[1]}
    ensures s.world.c2Secret == START_KEY
  {
    hide Advance, Admissible, Calm, Reaches;
    var before;
    inputs, before, id := OneClient(cfg);
    ReachedAgrees(cfg, inputs, before);
    var input := Creation("t", [1], NOTHING_FAILS);
    Creates(cfg, before, "t", [1]);
    OneMore(cfg, inputs, before, input);
    inputs, s := inputs + [input], Advance(cfg, before, input);
  }

  lemma OneLink(cfg: Config) returns (inputs: seq<Input>, s: System, id: Bytes)
    requires cfg == Setup(cfg.c2Batch) && cfg.Usable()
    ensures Reaches(cfg, inputs, s) && s.world.tables.clients.Keys == {id} && id in s.devices
    ensures s.world.tables.topics.Keys == {"t"} && s.world.tables.links == {(id, "t")} && s.drawn == {[1]}
    ensures s.world.c2Secret == START_KEY
    ensures "t" in s.devices[id].topicKeys && !ResetSince(s.devices[id].log, "t")
  {
    hide Advance, Admissible, Calm, Reaches;
    var before;
    inputs, before, id := OneTopic(cfg);
    ReachedAgrees(cfg, inputs, before);
    var input := Linking(id, "t", NOTHING_FAILS);
    Links(cfg, before, id, "t");
    OneMore(cfg, inputs, before, input);
    inputs, s := inputs + [input], Advance(cfg, before, input);
  }

  /**
   * The hypotheses of the main result hold together, for a run that registers a client, creates a topic,
   * links the two and rotates the C2 key. The client's device ends with the topic's key.
   */
  lemma MainResultApplies() returns (cfg: Config, inputs: seq<Input>, s: System, id: Bytes, topic: string)
    ensures cfg.Usable() && Reaches(cfg, inputs, s)
    ensures
      && id in s.world.tables.clients && topic in s.world.tables.topics && (id, topic) in s.world.tables.links
      && cfg.lib.C2Public(s.world.c2Secret) != cfg.lib.C2Public(START_KEY)
      && id in s.devices && topic in s.devices[id].topicKeys
  {
    hide Advance, Admissible, Calm, Reaches;
    cfg, topic := Setup(100), "t";
    var before;
    inputs, before, id := OneLink(cfg);
    ReachedAgrees(cfg, inputs, before);
    Rotates(cfg, before, NEXT_KEY);
    OneMore(cfg, inputs, before, Rotation(NEXT_KEY));
    inputs, s := inputs + [Rotation(NEXT_KEY)], Advance(cfg, before, Rotation(NEXT_KEY));
    NextKeyIsNew();
  }

  lemma NextKeyIsNew()
    ensures Simple().C2Public(NEXT_KEY) != Simple().C2Public(START_KEY)
    ensures Simple().StoredHalf(true, NEXT_KEY) != Simple().StoredHalf(true, DEVICE_KEY)
  {
    assert Simple().C2Public(NEXT_KEY)[1] != Simple().C2Public(START_KEY)[1];
    assert Mark(NEXT_KEY)[1] != Mark(DEVICE_KEY)[1];
  }

  // ---- Calls that part devices and store

  /** From a state that a calm run ends in, one more call leaves devices and store apart. */
  ghost predicate Parts(cfg: Config, inputs: seq<Input>, s: System, input: Input)
    requires cfg.Usable()
  {
    Reaches(cfg, inputs, s) && Admissible(cfg, s, input) && !Agree(cfg, Advance(cfg, s, input))
  }

  lemma UnrecordedLinkDisagrees(cfg: Config, s: System, input: Input)
    requires cfg.Usable() && cfg.lib.Sound() && Agree(cfg, s) && LinkCall(input.call)
    requires input.faults == COMMIT_FAILS
    requires input.call.id in s.world.tables.clients && input.call.topic in s.world.tables.topics && Matters(s, input)
    ensures Admissible(cfg, s, input) && !Agree(cfg, Advance(cfg, s, input))
  {
    hide Advance, Agree, Matters;
    LinkCallAgreesIff(cfg, s, input);
  }

  /** A link that is told and not recorded. */
  lemma UnrecordedLinkParts() returns (cfg: Config, inputs: seq<Input>, s: System, input: Input)
    ensures cfg.Usable() && input.call.CallNewTopicClient? && Parts(cfg, inputs, s, input)
  {
    hide Reaches, Advance, Agree, Perform, Simple;
    cfg := Setup(100);
    var id;
    inputs, s, id := OneTopic(cfg);
    ReachedAgrees(cfg, inputs, s);
    input := Linking(id, "t", COMMIT_FAILS);
    UnrecordedLinkDisagrees(cfg, s, input);
  }

  /** An unlinking that is told and not recorded. */
  lemma UnrecordedUnlinkParts() returns (cfg: Config, inputs: seq<Input>, s: System, input: Input)
    ensures cfg.Usable() && input.call.CallRemoveTopicClient? && Parts(cfg, inputs, s, input)
  {
    hide Reaches, Advance, Agree, Perform, Simple, ResetSince;
    cfg := Setup(100);
    var id;
    inputs, s, id := OneLink(cfg);
    ReachedAgrees(cfg, inputs, s);
    input := Input(CallRemoveTopicClient(id, "t"), COMMIT_FAILS, []);
    UnrecordedLinkDisagrees(cfg, s, input);
  }

  /** A client key that is sent and not stored. */
  lemma UnrecordedKeyParts() returns (cfg: Config, inputs: seq<Input>, s: System, input: Input)
    ensures cfg.Usable() && input.call.CallNewClientKey? && Parts(cfg, inputs, s, input)
  {
    hide Reaches, Advance, Agree, Perform, Mark, Exchange, Seal, Unseal, Encode, Decode;
    cfg := Setup(100);
    var id;
    inputs, s, id := OneClient(cfg);
    ReachedAgrees(cfg, inputs, s);
    input := Input(CallNewClientKey(id, NEXT_KEY), ROW_FAILS, []);
    NextKeyIsNew();
    NewClientKeyAgreesIff(cfg, s, input);
  }

  /** A client registered a second time, under another key, while its device stays as it was. */
  lemma OverwrittenKeyParts() returns (cfg: Config, inputs: seq<Input>, s: System, input: Input)
    ensures cfg.Usable() && Reaches(cfg, inputs, s) && NamesUnique(s.world.tables) && input.call.CallNewClient?
    ensures !Agree(cfg, System(Perform(cfg, s.world, input.call, input.faults).0, s.devices, s.drawn))
  {
    hide Reaches, Agree, Perform, Exchange, Seal, Unseal, Encode, Decode, NamesUnique;
    cfg := Setup(100);
    var id;
    inputs, s, id := OneClient(cfg);
    ReachedAgrees(cfg, inputs, s);
    AgreeingNames(cfg, s);
    input := Input(CallNewClient("a", [], Mark(NEXT_KEY)), NOTHING_FAILS, []);
    NextKeyIsNew();
    NewClientAgreesIff(cfg, s, input);
  }

  /** A topic whose linked clients could not be counted: NewTopic is done and told no one. */
  lemma UncountedTopicParts() returns (cfg: Config, inputs: seq<Input>, s: System, input: Input)
    ensures cfg.Usable() && input.call.CallNewTopic? && Parts(cfg, inputs, s, input)
    ensures NamesUnique(s.world.tables)
    ensures NewTopic(cfg, s.world, input.call.topic, input.call.key, input.faults).1 == Done
  {
    hide Reaches, Advance, Agree, Simple, ResetSince, NewTopic, NamesUnique;
    cfg := Setup(100);
    var id;
    inputs, s, id := OneLink(cfg);
    ReachedAgrees(cfg, inputs, s);
    AgreeingNames(cfg, s);
    input := Creation("t", [2], COUNT_IS_LOST);
    UncountedTopicIsDone(cfg, s, id);
  }

  lemma UncountedTopicIsDone(cfg: Config, s: System, id: Bytes)
    requires cfg.Usable() && cfg.lib.Sound() && Agree(cfg, s) && cfg.validTopic("t")
    requires id in s.world.tables.clients && id in s.devices && s.drawn == {[1]}
    requires (id, "t") in s.world.tables.links && !ResetSince(s.devices[id].log, "t")
    ensures var input := Creation("t", [2], COUNT_IS_LOST);
      && !Agree(cfg, Advance(cfg, s, input))
      && NewTopic(cfg, s.world, "t", [2], input.faults).1 == Done
  {
    hide SendAll, Advance, ClientsAgree, LinksAgree, KeysKnown;
    var input := Creation("t", [2], COUNT_IS_LOST);
    var committed := CommitTopic(cfg, s.world.tables, "t", [2], input.faults);
    assert id in ClientsOf(committed.value, "t") && !WasReset(s, id, "t");
    NewTopicAgreesIff(cfg, s, input, committed.value);
  }

  // ---- One hundred and one clients

  function Name(n: nat): (name: string)
    ensures |name| == n
  {
    seq(n, _ => 'a')
  }

  function Registered(n: nat): set<Bytes> {
    set i | 1 <= i <= n :: Alias(Name(i))
  }

  lemma {:induction false} RegisteredSize(n: nat)
    requires n <= 255
    ensures |Registered(n)| == n
    ensures forall m: nat :: n < m <= 255 ==> Alias(Name(m)) !in Registered(n)
  {
    forall m: nat, i: nat | 1 <= i <= n < m <= 255 ensures Alias(Name(m)) != Alias(Name(i)) {
      assert Alias(Name(m))[0] != Alias(Name(i))[0];
    }
    if n > 0 {
      RegisteredSize(n - 1);
      RegisteredGrows(n);
    }
  }

  lemma {:induction false} ManyClients(cfg: Config, n: nat) returns (inputs: seq<Input>, s: System)
    requires cfg == Setup(cfg.c2Batch) && cfg.Usable() && n <= 255
    ensures Reaches(cfg, inputs, s) && s.world.tables.clients.Keys == Registered(n) && s.world.c2Secret == START_KEY
  {
    hide Advance, Admissible, Calm, Reaches, Alias;
    if n == 0 {
      SimpleIsSound();
      StartIsReached(cfg);
      inputs, s := [], Fresh(START_KEY);
    } else {
      var before;
      inputs, before := ManyClients(cfg, n - 1);
      inputs, s := AnotherClient(cfg, inputs, before, n);
    }
  }

  lemma AnotherClient(cfg: Config, inputs: seq<Input>, s: System, n: nat) returns (inputs': seq<Input>, s': System)
    requires cfg == Setup(cfg.c2Batch) && cfg.Usable() && 0 < n <= 255
    requires Reaches(cfg, inputs, s) && s.world.tables.clients.Keys == Registered(n - 1)
    ensures Reaches(cfg, inputs', s') && s'.world.tables.clients.Keys == Registered(n)
    ensures s'.world.c2Secret == s.world.c2Secret
  {
    hide Advance, Admissible, Calm, Reaches, Registered, Agree;
    ReachedAgrees(cfg, inputs, s);
    RegisteredSize(n - 1);
    Registers(cfg, s, Name(n));
    OneMore(cfg, inputs, s, Registration(cfg, Name(n)));
    inputs', s' := inputs + [Registration(cfg, Name(n))], Advance(cfg, s, Registration(cfg, Name(n)));
    RegisteredGrows(n);
  }

  lemma RegisteredGrows(n: nat)
    requires n > 0
    ensures Registered(n) == Registered(n - 1) + {Alias(Name(n))}
  {
  }

  /** With the shipped sizes and 101 clients, a rotation in which nothing fails leaves one of them behind. */
  lemma LargeRotationParts() returns (cfg: Config, inputs: seq<Input>, s: System, input: Input)
    ensures cfg.c2Batch == 500 && input == Rotation(NEXT_KEY)
    ensures cfg.Usable() && Parts(cfg, inputs, s, input) && |s.world.tables.clients.Keys| == 101
  {
    hide Reaches, Advance, Agree, Informed, Registered;
    cfg, input := Setup(500), Rotation(NEXT_KEY);
    inputs, s := ManyClients(cfg, 101);
    ReachedAgrees(cfg, inputs, s);
    RegisteredSize(101);
    AgreeingNames(cfg, s);
    NextKeyIsNew();
    AllInformedIff(cfg, s, input);
    RotationAgreesIff(cfg, s, input);
  }
}
