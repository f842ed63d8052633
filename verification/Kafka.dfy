/**
 * The stop channels of the Kafka client, internal/protocols/kafka.go. Every subscription makes a
 * channel and starts a watcher on a partition; closing the channel tells the watcher to stop. Closing
 * a channel twice would panic, and a channel that is overwritten in the map can never be closed.
 */
module Kafka {
  import opened Wrappers

  /** A consumer, by number, and the topic whose one partition it reads. */
  type Partition = (nat, string)

  datatype State = State(
    connected: bool,
    consumer: Option<nat>,
    topics: map<string, nat>, // the stop channel of every subscription
    consumers: nat, // consumers made so far
    made: seq<Partition>, // what each channel made so far was made for
    closes: multiset<nat>, // how often each channel was closed
    watchers: set<nat>, // the channels whose watcher still runs
    open: set<Partition>, // partitions the broker library considers consumed
    shut: set<nat>) // consumers that were closed

  datatype Outcome = Done | AlreadyConnected | NotConnected | InvalidTopic | BrokerFailed

  predicate TopicChar(c: char) {
    'a' <= c <= 'z' || 'A' <= c <= 'Z' || '0' <= c <= '9' || c == '.' || c == '_' || c == '-'
  }

  predicate ValidTopic(topic: string) {
    topic != [] && forall i :: 0 <= i < |topic| ==> TopicChar(topic[i])
  }

  // ---- The operations, on values

  /** How far a connection attempt gets: no consumer, a consumer but no producer, or all the way. */
  datatype Reach = NoConsumer | NoProducer | Whole

  function ConnectTo(s: State, reach: Reach): (State, Outcome) {
    if s.connected then (s, AlreadyConnected)
    else if reach.NoConsumer? then (s, BrokerFailed)
    else
      var s' := s.(consumer := Some(s.consumers), consumers := s.consumers + 1);
      if reach.NoProducer? then (s', BrokerFailed) else (s'.(connected := true), Done)
  }

  /** The broker library lets a consumer read a partition once at a time; it may also fail. */
  function Subscribe(s: State, topic: string, fails: bool): (State, Outcome)
    requires s.consumer.Some?
  {
    var partition := (s.consumer.value, topic);
    if !ValidTopic(topic) then (s, InvalidTopic)
    else if fails || partition in s.open then (s, BrokerFailed)
    else
      var ch := |s.made|;
      (s.(topics := s.topics[topic := ch], made := s.made + [partition],
          watchers := s.watchers + {ch}, open := s.open + {partition}), Done)
  }

  function SubscribeAll(s: State, topics: seq<string>, fails: string -> bool): (State, Outcome)
    requires s.consumer.Some?
    decreases |topics|
  {
    if topics == [] then (s, Done)
    else
      var r := Subscribe(s, topics[0], fails(topics[0]));
      if r.1 != Done then r else SubscribeAll(r.0, topics[1..], fails)
  }

  function Unsubscribe(s: State, topic: string): (State, Outcome) {
    if !ValidTopic(topic) then (s, InvalidTopic)
    else if topic !in s.topics then (s, Done)
    else (s.(topics := s.topics - {topic}, closes := s.closes + multiset{s.topics[topic]}), Done)
  }

  function Users(topics: map<string, nat>, done: set<string>, ch: nat): set<string>
    requires done <= topics.Keys
  {
    set t | t in done && topics[t] == ch
  }

  /** Closes the channel of every topic in `done`, once for each topic that has it. */
  ghost predicate ClosedFor(topics: map<string, nat>, done: set<string>, closes: multiset<nat>, closes': multiset<nat>)
    requires done <= topics.Keys
  {
    forall ch: nat :: closes'[ch] == closes[ch] + |Users(topics, done, ch)|
  }

  ghost predicate DisconnectsTo(s: State, s': State) {
    && s.connected && s.consumer.Some?
    && s' == s.(connected := false, consumer := None, topics := map[], closes := s'.closes,
                shut := s.shut + {s.consumer.value})
    && ClosedFor(s.topics, s.topics.Keys, s.closes, s'.closes)
  }

  /** The consumer is closed and the producer is not: the client stays connected, with a closed consumer. */
  ghost predicate HalfDisconnectsTo(s: State, s': State) {
    s.connected && s.consumer.Some? && s' == s.(shut := s.shut + {s.consumer.value})
  }

  /** A watcher sees its channel closed, and gives its partition back unless that fails. */
  ghost predicate Stopped(s: State, s': State, ch: nat) {
    && ch in s.watchers && ch < |s.made| && s.closes[ch] > 0
    && (s' == s.(watchers := s.watchers - {ch}, open := s.open - {s.made[ch]})
        || s' == s.(watchers := s.watchers - {ch}))
  }

  /** A watcher whose context ends leaves its partition taken. */
  ghost predicate Cancelled(s: State, s': State, ch: nat) {
    ch in s.watchers && s' == s.(watchers := s.watchers - {ch})
  }

  // ---- The invariant

  ghost predicate ChannelsSafe(s: State) {
    && (forall ch: nat :: s.closes[ch] <= 1)
    && (forall ch: nat :: s.closes[ch] > 0 ==> ch < |s.made|)
    && (forall t :: t in s.topics ==>
          s.topics[t] < |s.made| && s.closes[s.topics[t]] == 0 && s.made[s.topics[t]].1 == t)
  }

  /** Channels that are still of use were made for different partitions, and those are taken. */
  ghost predicate PartitionsHeld(s: State) {
    && (forall ch :: ch in s.watchers ==> ch < |s.made| && s.made[ch] in s.open)
    && (forall t :: t in s.topics ==> s.topics[t] < |s.made| && s.made[s.topics[t]] in s.open)
    && (forall ch, ch' :: ch in s.watchers && ch' in s.watchers && ch != ch' ==> s.made[ch] != s.made[ch'])
    && (forall ch, t :: ch in s.watchers && t in s.topics && ch != s.topics[t] ==> s.made[ch] != s.made[s.topics[t]])
  }

  /**
   * Partitions are taken by consumers made so far. One made after a subscription cannot hold the
   * partition of a topic that still is in the map with an older consumer's channel.
   */
  ghost predicate ConsumersKnown(s: State) {
    && (s.connected ==> s.consumer.Some?)
    && (s.consumer.Some? ==> s.consumer.value < s.consumers)
    && (forall p :: p in s.open ==> p.0 < s.consumers)
    && (forall t :: t in s.topics && s.topics[t] < |s.made| && s.consumer.Some? && (s.consumer.value, t) in s.open ==>
          s.made[s.topics[t]].0 == s.consumer.value)
  }

  ghost predicate Safe(s: State) {
    ChannelsSafe(s) && PartitionsHeld(s) && ConsumersKnown(s)
  }

  const START := State(false, None, map[], 0, [], multiset{}, {}, {}, {})

  ghost predicate Subscribed(s: State, s': State) {
    s.consumer.Some? && exists topic, fails :: s' == Subscribe(s, topic, fails).0
  }

  ghost predicate Step(s: State, s': State) {
    || (exists reach :: s' == ConnectTo(s, reach).0)
    || Subscribed(s, s')
    || (exists topic :: s' == Unsubscribe(s, topic).0)
    || DisconnectsTo(s, s')
    || HalfDisconnectsTo(s, s')
    || (exists ch :: Stopped(s, s', ch))
    || (exists ch :: Cancelled(s, s', ch))
  }

  lemma SubscribeKeepsChannels(s: State, topic: string, fails: bool)
    requires ChannelsSafe(s) && s.consumer.Some?
    ensures ChannelsSafe(Subscribe(s, topic, fails).0)
  {
    assert s.closes[|s.made|] == 0;
  }

  lemma SubscribeKeepsPartitions(s: State, topic: string, fails: bool)
    requires PartitionsHeld(s) && s.consumer.Some?
    ensures PartitionsHeld(Subscribe(s, topic, fails).0)
  {
  }

  lemma SubscribeKeepsConsumers(s: State, topic: string, fails: bool)
    requires ConsumersKnown(s) && PartitionsHeld(s) && s.consumer.Some?
    ensures ConsumersKnown(Subscribe(s, topic, fails).0)
  {
  }

  lemma SubscribeSafe(s: State, topic: string, fails: bool)
    requires Safe(s) && s.consumer.Some?
    ensures Safe(Subscribe(s, topic, fails).0)
  {
    hide ChannelsSafe, PartitionsHeld, ConsumersKnown, Subscribe;
    SubscribeKeepsChannels(s, topic, fails);
    SubscribeKeepsPartitions(s, topic, fails);
    SubscribeKeepsConsumers(s, topic, fails);
  }

  lemma UnsubscribeSafe(s: State, topic: string)
    requires Safe(s)
    ensures Safe(Unsubscribe(s, topic).0)
  {
  }

  /** A channel of the map belongs to one topic, so it is closed for one topic. */
  lemma ClosedOnce(s: State, ch: nat)
    requires ChannelsSafe(s)
    ensures var users := Users(s.topics, s.topics.Keys, ch);
      |users| <= 1 && (|users| == 1 ==> s.closes[ch] == 0 && ch < |s.made|)
  {
    var users := Users(s.topics, s.topics.Keys, ch);
    if users != {} {
      var t :| t in users;
      assert users == {t};
    }
  }

  lemma DisconnectSafe(s: State, s': State)
    requires Safe(s) && DisconnectsTo(s, s')
    ensures Safe(s')
  {
    forall ch: nat ensures s'.closes[ch] <= 1 && (s'.closes[ch] > 0 ==> ch < |s.made|) {
      ClosedOnce(s, ch);
    }
  }

  lemma HalfDisconnectSafe(s: State, s': State)
    requires Safe(s) && HalfDisconnectsTo(s, s')
    ensures Safe(s')
  {
  }

  lemma WatcherKeepsPartitions(s: State, s': State, ch: nat)
    requires ChannelsSafe(s) && PartitionsHeld(s) && (Stopped(s, s', ch) || Cancelled(s, s', ch))
    ensures PartitionsHeld(s')
  {
  }

  lemma WatcherSafe(s: State, s': State, ch: nat)
    requires Safe(s) && (Stopped(s, s', ch) || Cancelled(s, s', ch))
    ensures Safe(s')
  {
    hide PartitionsHeld;
    WatcherKeepsPartitions(s, s', ch);
  }

  lemma StepSafe(s: State, s': State)
    requires Safe(s) && Step(s, s')
    ensures Safe(s')
  {
    if reach :| s' == ConnectTo(s, reach).0 {
    } else if Subscribed(s, s') {
      var topic, fails :| s' == Subscribe(s, topic, fails).0;
      SubscribeSafe(s, topic, fails);
    } else if topic :| s' == Unsubscribe(s, topic).0 {
      UnsubscribeSafe(s, topic);
    } else if DisconnectsTo(s, s') {
      DisconnectSafe(s, s');
    } else if HalfDisconnectsTo(s, s') {
      HalfDisconnectSafe(s, s');
    } else {
      var ch :| Stopped(s, s', ch) || Cancelled(s, s', ch);
      WatcherSafe(s, s', ch);
    }
  }

  // ---- Runs

  ghost predicate IsRun(run: seq<State>) {
    && run != [] && run[0] == START
    && forall i :: 0 <= i < |run| - 1 ==> Step(run[i], run[i + 1])
  }

  lemma StartsAtStart(run: seq<State>)
    requires IsRun(run)
    ensures run != [] && run[0] == START
  {
  }

  lemma StepOfRun(run: seq<State>, k: nat)
    requires IsRun(run) && 0 < k < |run|
    ensures Step(run[k - 1], run[k])
  {
  }

  lemma {:induction false} RunsAreSafe(run: seq<State>, k: nat)
    requires IsRun(run) && k < |run|
    ensures Safe(run[k])
  {
    hide IsRun, Step;
    if k == 0 {
      StartsAtStart(run);
    } else {
      hide Safe;
      StepOfRun(run, k);
      RunsAreSafe(run, k - 1);
      StepSafe(run[k - 1], run[k]);
    }
  }

  /**
   * In every run, half-failed connections included: no channel is closed twice, and the map's are open
   * and distinct.
   */
  lemma NoChannelClosedTwice(run: seq<State>, k: nat)
    requires IsRun(run) && k < |run|
    ensures forall ch: nat :: run[k].closes[ch] <= 1
    ensures forall t :: t in run[k].topics ==> run[k].closes[run[k].topics[t]] == 0
    ensures forall t, u :: t in run[k].topics && u in run[k].topics && t != u ==> run[k].topics[t] != run[k].topics[u]
  {
    RunsAreSafe(run, k);
  }

  /** A successful subscription replaced a channel that had not been closed. */
  ghost predicate Overwrites(s: State, s': State) {
    exists t :: t in s.topics && t in s'.topics && s'.topics[t] != s.topics[t]
  }

  /** Subscriptions succeed only while the client is connected. */
  ghost predicate Orderly(run: seq<State>) {
    forall i :: 0 <= i < |run| - 1 && |run[i + 1].made| > |run[i].made| ==> run[i].connected
  }

  /** Every subscription in the map was made with the consumer in use. */
  ghost predicate Current(s: State) {
    && ChannelsSafe(s)
    && (forall t :: t in s.topics ==> s.consumer == Some(s.made[s.topics[t]].0))
    && (!s.connected ==> s.topics == map[])
  }

  lemma SubscribeCurrent(s: State, topic: string, fails: bool)
    requires Safe(s) && Current(s) && s.consumer.Some?
    requires var s' := Subscribe(s, topic, fails).0;
      |s'.made| > |s.made| ==> s.connected
    ensures var s' := Subscribe(s, topic, fails).0;
      Current(s') && !Overwrites(s, s')
  {
    SubscribeSafe(s, topic, fails);
  }

  /** What every other step leaves of the subscriptions. */
  ghost predicate Reduces(s: State, s': State) {
    && (s'.connected || !s.connected || s'.topics == map[])
    && (s'.topics == map[] || (s'.made == s.made && s'.consumer == s.consumer))
    && forall t :: t in s'.topics ==> t in s.topics && s'.topics[t] == s.topics[t]
  }

  lemma OtherStepReduces(s: State, s': State)
    requires Step(s, s') && !Subscribed(s, s') && (!s.connected ==> s.topics == map[])
    ensures Reduces(s, s')
  {
    hide ClosedFor, Subscribed;
  }

  lemma ReducedCurrent(s: State, s': State)
    requires Current(s) && Safe(s') && Reduces(s, s')
    ensures Current(s') && !Overwrites(s, s')
  {
  }

  lemma StepCurrent(s: State, s': State)
    requires Safe(s) && Current(s) && Step(s, s') && (|s'.made| > |s.made| ==> s.connected)
    ensures Current(s') && !Overwrites(s, s')
  {
    hide Safe, ChannelsSafe, Step, Reduces, Overwrites;
    StepSafe(s, s');
    if Subscribed(s, s') {
      var topic, fails :| s' == Subscribe(s, topic, fails).0;
      SubscribeCurrent(s, topic, fails);
    } else {
      OtherStepReduces(s, s');
      ReducedCurrent(s, s');
    }
  }

  lemma OrderlyStep(run: seq<State>, k: nat)
    requires Orderly(run) && 0 < k < |run|
    ensures |run[k].made| > |run[k - 1].made| ==> run[k - 1].connected
  {
  }

  lemma {:induction false} OrderlyRunsAreCurrent(run: seq<State>, k: nat)
    requires IsRun(run) && Orderly(run) && k < |run|
    ensures Current(run[k])
  {
    hide IsRun, Orderly, Step;
    if k == 0 {
      StartsAtStart(run);
    } else {
      hide Safe, Current;
      StepOfRun(run, k);
      OrderlyStep(run, k);
      OrderlyRunsAreCurrent(run, k - 1);
      RunsAreSafe(run, k - 1);
      StepCurrent(run[k - 1], run[k]);
    }
  }

  /** A client that is only used while connected never overwrites a live channel. */
  lemma OrderlyRunsNeverOverwrite(run: seq<State>, k: nat)
    requires IsRun(run) && Orderly(run) && k < |run| - 1
    ensures !Overwrites(run[k], run[k + 1])
  {
    hide IsRun, Orderly, Step, Safe, Current, Overwrites;
    StepOfRun(run, k + 1);
    OrderlyStep(run, k + 1);
    OrderlyRunsAreCurrent(run, k);
    RunsAreSafe(run, k);
    StepCurrent(run[k], run[k + 1]);
  }

  /**
   * Exactly when a subscription the broker library would accept loses a live channel, in every run:
   * the topic is in the map with a channel that was made for another consumer.
   */
  lemma OverwritesIff(run: seq<State>, k: nat, topic: string)
    requires IsRun(run) && k < |run| && run[k].consumer.Some? && ValidTopic(topic)
    ensures var s := run[k];
      Overwrites(s, Subscribe(s, topic, false).0) <==>
        topic in s.topics && s.topics[topic] < |s.made| && s.made[s.topics[topic]].0 != s.consumer.value
  {
    RunsAreSafe(run, k);
    var s := run[k];
    var s' := Subscribe(s, topic, false).0;
    if topic in s.topics && s.made[s.topics[topic]].0 != s.consumer.value {
      assert s'.topics[topic] == |s.made|;
    } else if topic in s.topics {
      assert s.made[s.topics[topic]] == (s.consumer.value, topic);
    }
  }

  /** Every Connect either left no consumer behind or succeeded. */
  ghost predicate ConnectsWhole(run: seq<State>) {
    forall i :: 0 <= i < |run| - 1 && !run[i].connected ==> run[i + 1] != ConnectTo(run[i], NoProducer).0
  }

  lemma StepKeepsWhole(s: State, s': State)
    requires Step(s, s') && (s.consumer.Some? ==> s.connected)
    requires !s.connected ==> s' != ConnectTo(s, NoProducer).0
    ensures s'.consumer.Some? ==> s'.connected
    ensures |s'.made| > |s.made| ==> s.connected
  {
    hide ClosedFor;
  }

  lemma {:induction false} WholeRunsHaveConsumers(run: seq<State>, k: nat)
    requires IsRun(run) && ConnectsWhole(run) && k < |run|
    ensures run[k].consumer.Some? ==> run[k].connected
  {
    hide IsRun, Step;
    if k == 0 {
      StartsAtStart(run);
    } else {
      StepOfRun(run, k);
      WholeRunsHaveConsumers(run, k - 1);
      StepKeepsWhole(run[k - 1], run[k]);
    }
  }

  /** Where no Connect fails half-way, no successful subscription ever overwrites a live channel. */
  lemma WholeRunsNeverOverwrite(run: seq<State>, k: nat)
    requires IsRun(run) && ConnectsWhole(run) && k < |run| - 1
    ensures Orderly(run) && !Overwrites(run[k], run[k + 1])
  {
    hide Step, Overwrites;
    forall i | 0 <= i < |run| - 1 && |run[i + 1].made| > |run[i].made| ensures run[i].connected {
      WholeRunsHaveConsumers(run, i);
      StepKeepsWhole(run[i], run[i + 1]);
    }
    OrderlyRunsNeverOverwrite(run, k);
  }

  /**
   * Used after a Connect that failed half-way, it can: the consumer is there although Connect
   * returned an error, and the next Connect brings another one that may read the topic again.
   */
  lemma HalfConnectedOverwrites(topic: string) returns (run: seq<State>)
    requires ValidTopic(topic)
    ensures IsRun(run) && |run| == 5 && Overwrites(run[3], run[4])
  {
    var s1 := ConnectTo(START, NoProducer).0;
    var s2 := Subscribe(s1, topic, false).0;
    var s3 := ConnectTo(s2, Whole).0;
    var s4 := Subscribe(s3, topic, false).0;
    run := [START, s1, s2, s3, s4];
    assert s4.topics[topic] == 1 && s3.topics[topic] == 0;
  }

  // ---- What the operations are for

  /** A channel that was in the map is there under the same topic no more, and another one is. */
  ghost predicate OverwrittenAt(s: State, s': State, ch: nat) {
    exists t :: t in s.topics && s.topics[t] == ch && t in s'.topics && s'.topics[t] != ch
  }

  ghost predicate ClosedOrKept(s: State, ch: nat) {
    s.closes[ch] == 1 || ch in s.topics.Values
  }

  /** What a step that does not subscribe is: an unsubscription, a disconnection, or nothing to the channels. */
  lemma OtherStepChannels(s: State, s': State)
    requires Step(s, s') && !Subscribed(s, s')
    ensures
      || (exists topic :: s' == Unsubscribe(s, topic).0)
      || DisconnectsTo(s, s')
      || (s'.made == s.made && s'.topics == s.topics && s'.closes == s.closes)
  {
    hide ClosedFor, Subscribed;
  }

  lemma StepClosesOrKeeps(s: State, s': State, ch: nat)
    requires Safe(s) && Step(s, s') && ch < |s'.made| && (ch < |s.made| ==> ClosedOrKept(s, ch))
    ensures ClosedOrKept(s', ch) || OverwrittenAt(s, s', ch)
  {
    if Subscribed(s, s') {
      hide Safe, Step, ClosedOrKept, OverwrittenAt;
      SubscribeClosesOrKeeps(s, s', ch);
    } else {
      hide ChannelsSafe, PartitionsHeld, ConsumersKnown, ClosedFor, Step, Subscribed, OverwrittenAt;
      OtherStepChannels(s, s');
      if topic :| s' == Unsubscribe(s, topic).0 {
        UnsubscribeClosesOrKeeps(s, topic, ch);
      } else if DisconnectsTo(s, s') {
        DisconnectClosesOrKeeps(s, s', ch);
      }
    }
  }

  lemma SubscribeClosesOrKeeps(s: State, s': State, ch: nat)
    requires Subscribed(s, s') && ch < |s'.made| && (ch < |s.made| ==> ClosedOrKept(s, ch))
    ensures ClosedOrKept(s', ch) || OverwrittenAt(s, s', ch)
  {
    var topic, fails :| s' == Subscribe(s, topic, fails).0;
    if ch == |s.made| {
      assert s'.topics[topic] == ch;
    } else if s.closes[ch] != 1 {
      var t :| t in s.topics && s.topics[t] == ch;
      assert s'.topics[t] == ch || s'.topics[t] != ch;
    }
  }

  lemma UnsubscribeClosesOrKeeps(s: State, topic: string, ch: nat)
    requires ChannelsSafe(s) && ClosedOrKept(s, ch)
    ensures ClosedOrKept(Unsubscribe(s, topic).0, ch)
  {
    var s' := Unsubscribe(s, topic).0;
    if s.closes[ch] != 1 {
      var t :| t in s.topics && s.topics[t] == ch;
      if t != topic {
        assert t in s'.topics && s'.topics[t] == ch;
      }
    }
  }

  lemma DisconnectClosesOrKeeps(s: State, s': State, ch: nat)
    requires ChannelsSafe(s) && DisconnectsTo(s, s') && ClosedOrKept(s, ch)
    ensures s'.closes[ch] == 1
  {
    var users := Users(s.topics, s.topics.Keys, ch);
    ClosedOnce(s, ch);
    if s.closes[ch] != 1 {
      var t :| t in s.topics && s.topics[t] == ch;
      assert t in users;
    }
  }

  /** In every run, a channel has been closed exactly once unless it still is in the map or was overwritten there. */
  lemma {:induction false} ChannelsAreClosed(run: seq<State>, k: nat, ch: nat)
    requires IsRun(run) && k < |run| && ch < |run[k].made|
    ensures ClosedOrKept(run[k], ch) || exists i :: 0 <= i < k && OverwrittenAt(run[i], run[i + 1], ch)
  {
    hide IsRun, Step;
    if k == 0 {
      StartsAtStart(run);
    } else {
      hide Safe, ClosedOrKept, OverwrittenAt;
      StepOfRun(run, k);
      RunsAreSafe(run, k - 1);
      if ch < |run[k - 1].made| {
        ChannelsAreClosed(run, k - 1, ch);
      }
      if ch >= |run[k - 1].made| || ClosedOrKept(run[k - 1], ch) {
        StepClosesOrKeeps(run[k - 1], run[k], ch);
      }
    }
  }

  /** An unsubscription closes the topic's channel, once, and no other; its watcher still has to see it. */
  lemma UnsubscribeOutcome(s: State, topic: string)
    requires Safe(s)
    ensures var r := Unsubscribe(s, topic);
      && (r.1 == Done <==> ValidTopic(topic)) && (r.1 == InvalidTopic <==> !ValidTopic(topic))
      && (r.1 != Done || topic !in s.topics ==> r.0 == s)
      && (r.1 == Done ==>
            && r.0.topics.Keys == s.topics.Keys - {topic}
            && (forall t :: t in r.0.topics ==> r.0.topics[t] == s.topics[t])
            && r.0 == s.(topics := r.0.topics, closes := r.0.closes)
            && forall ch: nat ::
                 r.0.closes[ch] == if topic in s.topics && ch == s.topics[topic] then 1 else s.closes[ch])
  {
  }

  /** Once that watcher has stopped and given its partition back, the same consumer can subscribe again. */
  lemma ResubscribeAfterStop(s: State, topic: string, stopped: State)
    requires Safe(s) && ValidTopic(topic) && topic in s.topics && s.topics[topic] in s.watchers
    requires s.consumer.Some? && s.made[s.topics[topic]].0 == s.consumer.value
    requires stopped == Unsubscribe(s, topic).0.(watchers := s.watchers - {s.topics[topic]},
                                                 open := s.open - {s.made[s.topics[topic]]})
    ensures Stopped(Unsubscribe(s, topic).0, stopped, s.topics[topic])
    ensures Subscribe(Unsubscribe(s, topic).0, topic, false).1 == BrokerFailed
    ensures Subscribe(stopped, topic, false).1 == Done
  {
    assert s.made[s.topics[topic]] == (s.consumer.value, topic);
  }

  /** A subscription gives the topic a channel of its own, open, with a running watcher; the partition is taken then. */
  lemma SubscribeOutcome(s: State, topic: string, fails: bool)
    requires Safe(s) && s.consumer.Some?
    ensures var r := Subscribe(s, topic, fails);
      && (r.1 == Done <==> ValidTopic(topic) && !fails && (s.consumer.value, topic) !in s.open)
      && (r.1 == InvalidTopic <==> !ValidTopic(topic))
      && (r.1 != Done ==> r.0 == s)
      && (r.1 == Done ==>
            && topic in r.0.topics
            && var ch := r.0.topics[topic];
               && r.0.closes[ch] == 0 && ch in r.0.watchers && ch !in s.watchers && ch !in s.topics.Values
               && r.0.topics.Keys == s.topics.Keys + {topic}
               && (forall t :: t in s.topics && t != topic ==> r.0.topics[t] == s.topics[t])
               && r.0.closes == s.closes && r.0.connected == s.connected && r.0.consumer == s.consumer
               && Subscribe(r.0, topic, false).1 == BrokerFailed)
  {
    assert s.closes[|s.made|] == 0;
  }

  /** Subscriptions to several topics are done exactly if each of them is, and then all are in the map. */
  lemma {:induction false} SubscribeAllOutcome(s: State, topics: seq<string>, fails: string -> bool)
    requires Safe(s) && s.consumer.Some?
    ensures var r := SubscribeAll(s, topics, fails);
      && s.topics.Keys <= r.0.topics.Keys && r.0.closes == s.closes && r.0.consumer == s.consumer
      && s.open <= r.0.open
      && (r.1 == Done ==> forall t :: t in topics ==> t in r.0.topics && (s.consumer.value, t) in r.0.open)
      && (r.1 != Done ==> exists t :: t in topics && (!ValidTopic(t) || fails(t) || (s.consumer.value, t) in r.0.open))
    decreases |topics|
  {
    if topics != [] {
      hide Safe;
      var first := Subscribe(s, topics[0], fails(topics[0]));
      SubscribeSafe(s, topics[0], fails(topics[0]));
      if first.1 == Done {
        SubscribeAllOutcome(first.0, topics[1..], fails);
      }
      assert topics == [topics[0]] + topics[1..];
    }
  }

  /** After a Disconnect every channel of the map is closed; a new connection can take every valid topic at once. */
  lemma ReconnectOutcome(s: State, s': State, topic: string)
    requires Safe(s) && DisconnectsTo(s, s') && ValidTopic(topic)
    ensures !s'.connected && s'.consumer.None? && s.consumer.Some? && s.consumer.value in s'.shut
    ensures s'.topics == map[] && forall t :: t in s.topics ==> s'.closes[s.topics[t]] == 1
    ensures forall ch: nat :: ch !in s.topics.Values ==> s'.closes[ch] == s.closes[ch]
    ensures var again := ConnectTo(s', Whole);
      && again.1 == Done && again.0.connected && again.0.consumer.Some? && again.0.consumer != s.consumer
      && Subscribe(again.0, topic, false).1 == Done
  {
    forall t | t in s.topics ensures s'.closes[s.topics[t]] == 1 {
      DisconnectClosesOrKeeps(s, s', s.topics[t]);
    }
    forall ch: nat | ch !in s.topics.Values ensures s'.closes[ch] == s.closes[ch] {
      assert Users(s.topics, s.topics.Keys, ch) == {};
    }
  }

  /** A connection attempt is refused while connected, and otherwise succeeds exactly if it gets all the way. */
  lemma ConnectOutcome(s: State, reach: Reach)
    requires Safe(s)
    ensures var r := ConnectTo(s, reach);
      && (r.1 == AlreadyConnected <==> s.connected) && (r.1 == Done <==> !s.connected && reach.Whole?)
      && r.0.connected == (s.connected || r.1 == Done)
      && (r.0.consumer != s.consumer <==> !s.connected && !reach.NoConsumer?)
      && (forall p :: p in s.open && r.0.consumer != s.consumer ==> r.0.consumer != Some(p.0))
      && r.0 == s.(connected := r.0.connected, consumer := r.0.consumer, consumers := r.0.consumers)
  {
  }

  const LOWER := "abcdefghijklmnopqrstuvwxyz"
  const UPPER := "ABCDEFGHIJKLMNOPQRSTUVWXYZ"
  const DIGITS := "0123456789"

  predicate Legal(c: char) {
    c in LOWER || c in UPPER || c in DIGITS || c in "._-"
  }

  lemma LowerChar(c: char)
    ensures 'a' <= c <= 'z' <==> c in LOWER
  {
    if 'a' <= c <= 'z' {
      assert LOWER[c as int - 'a' as int] == c;
    }
  }

  lemma UpperChar(c: char)
    ensures 'A' <= c <= 'Z' <==> c in UPPER
  {
    if 'A' <= c <= 'Z' {
      assert UPPER[c as int - 'A' as int] == c;
    }
  }

  lemma DigitChar(c: char)
    ensures '0' <= c <= '9' <==> c in DIGITS
  {
    if '0' <= c <= '9' {
      assert DIGITS[c as int - '0' as int] == c;
    }
  }

  lemma LegalChar(c: char)
    ensures TopicChar(c) <==> Legal(c)
  {
    LowerChar(c);
    UpperChar(c);
    DigitChar(c);
  }

  /** The accepted topics are the non-empty strings over Kafka's alphabet. */
  lemma ValidTopicIff(topic: string)
    ensures ValidTopic(topic) <==> topic != "" && forall c :: c in topic ==> Legal(c)
  {
    hide TopicChar, Legal;
    forall c: char ensures TopicChar(c) <==> Legal(c) {
      LegalChar(c);
    }
  }

  // ---- The client object

  class KafkaPubSubClient {
    var connected: bool
    var consumer: Option<nat>
    var subscribedTopics: map<string, nat>

    // The Go runtime's and the broker library's side.
    var consumers: nat
    var made: seq<Partition>
    var closes: multiset<nat>
    var watchers: set<nat>
    var open: set<Partition>
    var shut: set<nat>

    ghost function Now(): State
      reads this
    {
      State(connected, consumer, subscribedTopics, consumers, made, closes, watchers, open, shut)
    }

    ghost predicate Valid()
      reads this
    {
      Safe(Now())
    }

    constructor ()
      ensures Now() == START && Valid()
    {
      connected, consumer, subscribedTopics := false, None, map[];
      consumers, made, closes, watchers, open, shut := 0, [], multiset{}, {}, {}, {};
    }

    method Connect(reach: Reach) returns (err: Outcome)
      requires Valid()
      modifies this
      ensures Valid() && (Now(), err) == ConnectTo(old(Now()), reach)
    {
      if connected {
        return AlreadyConnected;
      }
      if reach.NoConsumer? {
        return BrokerFailed;
      }
      consumer := Some(consumers);
      consumers := consumers + 1;
      if reach.NoProducer? {
        return BrokerFailed;
      }
      connected := true;
      return Done;
    }

    /** Closing a closed channel panics. */
    method Close(stopChan: nat)
      requires closes[stopChan] == 0
      modifies this`closes
      ensures closes == old(closes) + multiset{stopChan}
    {
      closes := closes + multiset{stopChan};
    }

    method Disconnect(consumerFails: bool, producerFails: bool) returns (err: Outcome)
      requires Valid()
      modifies this
      ensures Valid()
      ensures err == if !old(connected) then NotConnected
                     else if consumerFails || producerFails then BrokerFailed else Done
      ensures err == Done ==> DisconnectsTo(old(Now()), Now())
      ensures err == NotConnected || (err == BrokerFailed && consumerFails) ==> Now() == old(Now())
      ensures err == BrokerFailed && !consumerFails ==> HalfDisconnectsTo(old(Now()), Now())
    {
      hide ChannelsSafe, PartitionsHeld, ClosedFor;
      if !connected {
        return NotConnected;
      }
      if consumerFails {
        return BrokerFailed;
      }
      shut := shut + {consumer.value};
      HalfDisconnectSafe(old(Now()), Now());
      if producerFails {
        return BrokerFailed;
      }
      CloseAll();
      consumer, connected, subscribedTopics := None, false, map[];
      DisconnectSafe(old(Now()), Now());
      return Done;
    }

    /** Disconnect's loop over the map, whose order is unspecified. */
    method CloseAll()
      requires Valid()
      modifies this`closes
      ensures ClosedFor(subscribedTopics, subscribedTopics.Keys, old(closes), closes)
    {
      hide Safe, ClosedFor;
      ghost var s := Now();
      var todo, done: set<string> := subscribedTopics.Keys, {};
      ClosesNone(subscribedTopics, closes);
      while todo != {}
        invariant todo + done == subscribedTopics.Keys && todo !! done
        invariant ClosedFor(s.topics, done, s.closes, closes)
      {
        var topic :| topic in todo;
        ClosesOneMore(s, done, topic, closes);
        Close(subscribedTopics[topic]);
        todo, done := todo - {topic}, done + {topic};
      }
      assert done == subscribedTopics.Keys;
    }

    method SubscribeToTopic(topic: string, fails: bool) returns (err: Outcome)
      requires Valid() && consumer.Some?
      modifies this
      ensures Valid() && (Now(), err) == Subscribe(old(Now()), topic, fails)
    {
      hide ChannelsSafe, PartitionsHeld, ConsumersKnown;
      SubscribeSafe(Now(), topic, fails);
      if !ValidTopic(topic) {
        return InvalidTopic;
      }
      var partition := (consumer.value, topic);
      if fails || partition in open {
        return BrokerFailed;
      }
      open := open + {partition};
      var stopChan := |made|;
      made := made + [partition];
      subscribedTopics := subscribedTopics[topic := stopChan];
      watchers := watchers + {stopChan};
      return Done;
    }

    method SubscribeToTopics(topics: seq<string>, fails: string -> bool) returns (err: Outcome)
      requires Valid() && consumer.Some?
      modifies this
      ensures Valid() && (Now(), err) == SubscribeAll(old(Now()), topics, fails)
    {
      for i := 0 to |topics|
        invariant Valid() && consumer.Some?
        invariant SubscribeAll(Now(), topics[i..], fails) == SubscribeAll(old(Now()), topics, fails)
      {
        if !ValidTopic(topics[i]) {
          return InvalidTopic;
        }
        err := SubscribeToTopic(topics[i], fails(topics[i]));
        assert topics[i..][1..] == topics[i + 1..];
        if err != Done {
          return err;
        }
      }
      return Done;
    }

    method UnsubscribeFromTopic(topic: string) returns (err: Outcome)
      requires Valid()
      modifies this
      ensures Valid() && (Now(), err) == Unsubscribe(old(Now()), topic)
    {
      UnsubscribeSafe(Now(), topic);
      if !ValidTopic(topic) {
        return InvalidTopic;
      }
      if topic !in subscribedTopics {
        return Done;
      }
      var stopChan := subscribedTopics[topic];
      subscribedTopics := subscribedTopics - {topic};
      Close(stopChan);
      return Done;
    }

    /** The end of watchForMessages. */
    method WatcherStops(stopChan: nat, closed: bool, closeFails: bool)
      requires Valid() && stopChan in watchers && (closed ==> closes[stopChan] > 0)
      modifies this
      ensures Valid()
      ensures if closed then Stopped(old(Now()), Now(), stopChan) else Cancelled(old(Now()), Now(), stopChan)
    {
      watchers := watchers - {stopChan};
      if closed && !closeFails {
        open := open - {made[stopChan]};
      }
      WatcherSafe(old(Now()), Now(), stopChan);
    }
  }

  lemma ClosesNone(topics: map<string, nat>, closes: multiset<nat>)
    ensures ClosedFor(topics, {}, closes, closes)
  {
  }

  lemma ClosesOneMore(s: State, done: set<string>, topic: string, closes: multiset<nat>)
    requires Safe(s) && done <= s.topics.Keys && topic in s.topics && topic !in done
    requires ClosedFor(s.topics, done, s.closes, closes)
    ensures closes[s.topics[topic]] == 0
    ensures ClosedFor(s.topics, done + {topic}, s.closes, closes + multiset{s.topics[topic]})
  {
    hide PartitionsHeld;
    var ch := s.topics[topic];
    assert Users(s.topics, done, ch) == {};
    forall c: nat ensures Users(s.topics, done + {topic}, c)
                       == if c == ch then Users(s.topics, done, c) + {topic} else Users(s.topics, done, c) {
    }
  }
}
