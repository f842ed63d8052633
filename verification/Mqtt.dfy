/**
 * The topics and subscriptions of internal/protocols/mqtt.go. Filters are matched against topic
 * names level by level, as section 4.7 of MQTT 3.1.1 says.
 */
module Mqtt {

  // ---- Levels and matching

  /** The parts between the slashes. */
  function Levels(s: string): (r: seq<string>)
    ensures r != []
  {
    if s == "" then [""]
    else
      var rest := Levels(s[1..]);
      if s[0] == '/' then [""] + rest else [[s[0]] + rest[0]] + rest[1..]
  }

  function Join(levels: seq<string>): string
    requires levels != []
  {
    if |levels| == 1 then levels[0] else levels[0] + "/" + Join(levels[1..])
  }

  predicate LevelsMatch(filter: seq<string>, name: seq<string>) {
    if filter == [] then name == []
    else if filter[0] == "#" then true // this level, its parent and everything below
    else name != [] && (filter[0] == "+" || filter[0] == name[0]) && LevelsMatch(filter[1..], name[1..])
  }

  predicate IsWildcard(level: string) {
    level == "+" || level == "#"
  }

  /** A wildcard in the first level does not match names that begin with $. */
  predicate Matches(filter: string, name: string) {
    && LevelsMatch(Levels(filter), Levels(name))
    && !(IsWildcard(Levels(filter)[0]) && name != "" && name[0] == '$')
  }

  lemma {:induction false} JoinLevels(s: string)
    ensures Join(Levels(s)) == s
  {
    if s != "" {
      JoinLevels(s[1..]);
      var rest := Levels(s[1..]);
      if s[0] == '/' {
        assert Levels(s)[1..] == rest;
        assert s == "/" + s[1..];
      } else {
        assert Levels(s)[1..] == rest[1..];
        assert s == [s[0]] + s[1..];
      }
    }
  }

  predicate NoSlash(level: string) {
    '/' !in level
  }

  lemma {:induction false} LevelsHaveNoSlash(s: string)
    ensures forall i :: 0 <= i < |Levels(s)| ==> NoSlash(Levels(s)[i])
  {
    if s != "" {
      LevelsHaveNoSlash(s[1..]);
    }
  }

  lemma {:induction false} LevelsOfOne(level: string)
    requires NoSlash(level)
    ensures Levels(level) == [level]
  {
    if level != "" {
      assert forall c :: c in level[1..] ==> c in level;
      LevelsOfOne(level[1..]);
      assert level == [level[0]] + level[1..];
    }
  }

  lemma {:induction false} LevelsOfFirst(level: string, rest: string)
    requires NoSlash(level)
    ensures Levels(level + "/" + rest) == [level] + Levels(rest)
  {
    var s := level + "/" + rest;
    if level == "" {
      assert s[1..] == rest;
    } else {
      assert s[1..] == level[1..] + "/" + rest;
      assert forall c :: c in level[1..] ==> c in level;
      LevelsOfFirst(level[1..], rest);
      assert level == [level[0]] + level[1..];
    }
  }

  lemma {:induction false} LevelsJoin(levels: seq<string>)
    requires levels != [] && forall i :: 0 <= i < |levels| ==> NoSlash(levels[i])
    ensures Levels(Join(levels)) == levels
  {
    if |levels| == 1 {
      LevelsOfOne(levels[0]);
    } else {
      LevelsJoin(levels[1..]);
      LevelsOfFirst(levels[0], Join(levels[1..]));
    }
  }

  // ---- Literal filters

  predicate HasWildcard(levels: seq<string>) {
    exists i :: 0 <= i < |levels| && IsWildcard(levels[i])
  }

  lemma {:induction false} LiteralLevels(filter: seq<string>, name: seq<string>)
    requires !HasWildcard(filter)
    ensures LevelsMatch(filter, name) <==> filter == name
  {
    if filter != [] {
      assert !IsWildcard(filter[0]);
      assert forall i :: 0 <= i < |filter[1..]| ==> filter[1..][i] == filter[i + 1];
      if name != [] {
        LiteralLevels(filter[1..], name[1..]);
        assert filter == [filter[0]] + filter[1..] && name == [name[0]] + name[1..];
      }
    }
  }

  /** Without a wildcard level a filter matches the one name equal to it. */
  lemma LiteralMatch(filter: string, name: string)
    requires !HasWildcard(Levels(filter))
    ensures Matches(filter, name) <==> name == filter
  {
    LiteralLevels(Levels(filter), Levels(name));
    JoinLevels(filter);
    JoinLevels(name);
    assert !IsWildcard(Levels(filter)[0]);
  }

  lemma {:induction false} WildcardLevels(filter: seq<string>, i: nat, level: string)
    requires i < |filter| && IsWildcard(filter[i])
    ensures LevelsMatch(filter, filter[i := level])
  {
    if i == 0 {
      MatchesItself(filter[1..]);
      assert filter[i := level][1..] == filter[1..];
    } else {
      WildcardLevels(filter[1..], i - 1, level);
      assert filter[i := level][1..] == filter[1..][i - 1 := level];
    }
  }

  lemma {:induction false} MatchesItself(levels: seq<string>)
    ensures LevelsMatch(levels, levels)
  {
    if levels != [] {
      MatchesItself(levels[1..]);
    }
  }

  lemma {:induction false} JoinBegins(levels: seq<string>, level: string)
    requires levels != [] && levels[0] == level && level != ""
    ensures Join(levels) != "" && Join(levels)[0] == level[0]
  {
  }

  lemma WildcardMatchesMore(filter: string, i: nat)
    requires i < |Levels(filter)| && IsWildcard(Levels(filter)[i])
    ensures var name := Join(Levels(filter)[i := "x"]);
      name != filter && Matches(filter, name)
  {
    var levels := Levels(filter);
    var name := Join(levels[i := "x"]);
    LevelsHaveNoSlash(filter);
    assert NoSlash("x");
    LevelsJoin(levels[i := "x"]);
    WildcardLevels(levels, i, "x");
    if IsWildcard(levels[0]) {
      JoinBegins(levels[i := "x"], levels[i := "x"][0]);
    }
  }

  /** Wildcard levels are the only way for a filter to match anything but itself. */
  lemma LiteralIff(filter: string)
    ensures (forall name :: Matches(filter, name) <==> name == filter) <==> !HasWildcard(Levels(filter))
  {
    if HasWildcard(Levels(filter)) {
      var i :| 0 <= i < |Levels(filter)| && IsWildcard(Levels(filter)[i]);
      WildcardMatchesMore(filter, i);
    } else {
      forall name ensures Matches(filter, name) <==> name == filter {
        LiteralMatch(filter, name);
      }
    }
  }

  // ---- The topics the client accepts

  predicate ValidTopic(topic: string) {
    !(|topic| >= 4 && topic[..4] == "$SYS") && '+' !in topic && '#' !in topic
  }

  lemma {:induction false} LevelsHold(s: string, c: char, i: nat)
    requires i < |Levels(s)| && c in Levels(s)[i]
    ensures c in s
  {
    if s != "" && (i > 0 || s[0] != '/') && c != s[0] {
      LevelsHold(s[1..], c, if s[0] == '/' then i - 1 else i);
    }
  }

  lemma {:induction false} LevelsKeep(s: string, c: char) returns (i: nat)
    requires c in s && c != '/'
    ensures i < |Levels(s)| && c in Levels(s)[i]
  {
    if s[0] == c {
      i := 0;
    } else {
      var j := LevelsKeep(s[1..], c);
      i := if s[0] == '/' then j + 1 else j;
    }
  }

  lemma {:induction false} PrefixIsInFirstLevel(prefix: string, s: string)
    requires NoSlash(prefix)
    ensures prefix <= s <==> prefix <= Levels(s)[0]
  {
    if prefix != "" && s != "" {
      assert forall c :: c in prefix[1..] ==> c in prefix;
      PrefixIsInFirstLevel(prefix[1..], s[1..]);
      assert prefix == [prefix[0]] + prefix[1..] && s == [s[0]] + s[1..];
      if s[0] != '/' {
        assert Levels(s)[0][1..] == Levels(s[1..])[0];
      }
    }
  }

  /** Refused are the topics with a wildcard character in some level, and those whose first level begins with $SYS. */
  lemma ValidTopicIff(topic: string)
    ensures var levels := Levels(topic);
      ValidTopic(topic) <==>
        !("$SYS" <= levels[0]) && forall i :: 0 <= i < |levels| ==> '+' !in levels[i] && '#' !in levels[i]
  {
    var levels := Levels(topic);
    PrefixIsInFirstLevel("$SYS", topic);
    assert "$SYS" <= topic <==> |topic| >= 4 && topic[..4] == "$SYS";
    forall i, c | 0 <= i < |levels| && c in levels[i] ensures c in topic {
      LevelsHold(topic, c, i);
    }
    if '+' in topic {
      var i := LevelsKeep(topic, '+');
    }
    if '#' in topic {
      var i := LevelsKeep(topic, '#');
    }
  }

  predicate AllValid(topics: seq<string>) {
    forall i :: 0 <= i < |topics| ==> ValidTopic(topics[i])
  }

  /** An accepted topic used as a filter receives exactly the messages published to it. */
  lemma ValidTopicsAreLiteral(topic: string, name: string)
    requires ValidTopic(topic)
    ensures Matches(topic, name) <==> name == topic
  {
    var levels := Levels(topic);
    forall i | 0 <= i < |levels| ensures !IsWildcard(levels[i]) {
      if IsWildcard(levels[i]) {
        assert levels[i][0] in levels[i];
        LevelsHold(topic, levels[i][0], i);
      }
    }
    LiteralMatch(topic, name);
  }

  // ---- The client

  datatype Outcome = Done | InvalidTopic | BrokerFailed

  class MqttPubSubClient {
    const monitoring: bool
    const qos: nat
    var subscriptions: map<string, nat> // the filters the broker keeps for this client, with their QoS

    constructor (monitoring: bool, qos: nat)
      ensures Valid() && subscriptions == map[] && this.monitoring == monitoring && this.qos == qos
    {
      this.monitoring, this.qos, subscriptions := monitoring, qos, map[];
    }

    predicate Valid()
      reads this
    {
      forall topic :: topic in subscriptions ==> ValidTopic(topic) && subscriptions[topic] == qos
    }

    /** A message published to `name` comes to this client. */
    predicate Receives(name: string)
      reads this
    {
      exists filter :: filter in subscriptions && Matches(filter, name)
    }

    lemma ReceivesItsTopics(name: string)
      requires Valid()
      ensures Receives(name) <==> name in subscriptions
    {
      forall filter | filter in subscriptions ensures Matches(filter, name) <==> name == filter {
        ValidTopicsAreLiteral(filter, name);
      }
    }

    lemma ReceivesExactly()
      requires Valid()
      ensures forall name :: Receives(name) <==> name in subscriptions
    {
      forall name ensures Receives(name) <==> name in subscriptions {
        ReceivesItsTopics(name);
      }
    }

    /** All topics are checked before anything is asked of the broker. */
    method SubscribeToTopics(topics: seq<string>, brokerFails: bool) returns (err: Outcome)
      requires Valid()
      modifies this
      ensures Valid()
      ensures err == if !monitoring || topics == [] then Done else if !AllValid(topics) then InvalidTopic
                     else if brokerFails then BrokerFailed else Done
      ensures err != Done || !monitoring ==> subscriptions == old(subscriptions)
      ensures err == Done && monitoring ==> forall name :: Receives(name) <==> old(Receives(name)) || name in topics
    {
      hide ValidTopic, Receives, Matches;
      ReceivesExactly();
      if !monitoring {
        return Done;
      }
      if |topics| == 0 {
        return Done;
      }
      for i := 0 to |topics|
        invariant forall j :: 0 <= j < i ==> ValidTopic(topics[j])
      {
        if !ValidTopic(topics[i]) {
          return InvalidTopic;
        }
      }
      var filters: map<string, nat> := map[];
      for i := 0 to |topics|
        invariant forall topic :: topic in filters <==> topic in topics[..i]
        invariant forall topic :: topic in filters ==> filters[topic] == qos
      {
        filters := filters[topics[i] := qos];
      }
      if brokerFails {
        return BrokerFailed;
      }
      subscriptions := subscriptions + filters;
      assert topics[..|topics|] == topics;
      ReceivesExactly();
      return Done;
    }

    /** Here the topic is checked even when nothing is monitored. */
    method SubscribeToTopic(topic: string, brokerFails: bool) returns (err: Outcome)
      requires Valid()
      modifies this
      ensures Valid()
      ensures err == if !ValidTopic(topic) then InvalidTopic
                     else if monitoring && brokerFails then BrokerFailed else Done
      ensures err != Done || !monitoring ==> subscriptions == old(subscriptions)
      ensures err == Done && monitoring ==> forall name :: Receives(name) <==> old(Receives(name)) || name == topic
    {
      hide ValidTopic, Receives, Matches;
      ReceivesExactly();
      if !ValidTopic(topic) {
        return InvalidTopic;
      }
      if !monitoring {
        return Done;
      }
      if brokerFails {
        return BrokerFailed;
      }
      subscriptions := subscriptions[topic := qos];
      ReceivesExactly();
      return Done;
    }

    method UnsubscribeFromTopic(topic: string, brokerFails: bool) returns (err: Outcome)
      requires Valid()
      modifies this
      ensures Valid()
      ensures err == if !ValidTopic(topic) then InvalidTopic
                     else if monitoring && brokerFails then BrokerFailed else Done
      ensures err != Done || !monitoring ==> subscriptions == old(subscriptions)
      ensures err == Done && monitoring ==> forall name :: Receives(name) <==> old(Receives(name)) && name != topic
    {
      hide ValidTopic, Receives, Matches;
      ReceivesExactly();
      if !ValidTopic(topic) {
        return InvalidTopic;
      }
      if !monitoring {
        return Done;
      }
      if brokerFails {
        return BrokerFailed;
      }
      subscriptions := subscriptions - {topic};
      ReceivesExactly();
      return Done;
    }
  }
}
