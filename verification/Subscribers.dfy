/** A listener that is there from the start and never overflows can rebuild the client-topic links. */
module Subscribers {
  import opened Crypto
  import opened Faults
  import opened Store
  import opened EventLog
  import Events
  import M = Model

  /** Everything dispatched, whoever was listening. */
  function Dispatches<L(==)>(acts: seq<Events.Act<L>>): seq<M.Event> {
    if acts == [] then []
    else
      var last := acts[|acts| - 1];
      Dispatches(acts[..|acts| - 1]) + if last.Dispatch? then [last.e] else []
  }

  /** Added before anything else, once, and never closed. */
  predicate ThereThroughout<L(==)>(acts: seq<Events.Act<L>>, l: L) {
    && acts != [] && acts[0] == Events.Add(l)
    && forall i :: 0 < i < |acts| ==> acts[i] != Events.Add(l) && acts[i] != Events.Close(l)
  }

  lemma {:induction false} RemovingOthers<L>(s: seq<L>, l: L, other: L)
    requires l != other
    ensures multiset(Events.RemoveFirst(s, other))[l] == multiset(s)[l]
  {
    if s != [] {
      assert s == [s[0]] + s[1..];
      RemovingOthers(s[1..], l, other);
    }
  }

  lemma {:induction false} SeesEveryDispatch<L>(acts: seq<Events.Act<L>>, l: L)
    requires ThereThroughout(acts, l)
    ensures multiset(Events.Registered(acts))[l] == 1
    ensures Events.DispatchedTo(acts, l) == Dispatches(acts)
  {
    var front, last := acts[..|acts| - 1], acts[|acts| - 1];
    if front == [] {
      assert Events.Registered(front) == [] && Events.Registered(acts) == [l];
    } else {
      SeesEveryDispatch(front, l);
      if last.Close? {
        RemovingOthers(Events.Registered(front), l, last.l);
      }
    }
  }

  /**
   * After any run of calls, under any failures: a listener that was there throughout and always had
   * room replays, from what it read and what still waits for it, a relation that contains the links
   * and is exactly the links on names of clients and topics never removed.
   */
  lemma ListenersCanReplayLinks<L>(cfg: M.Config, c2Secret: Bytes, calls: seq<(M.Call, Faults)>,
                                   acts: seq<Events.Act<L>>, size: Events.Size, l: L, name: string, topic: string)
    requires cfg.Usable() && ThereThroughout(acts, l) && Events.Roomy(acts, size, l)
    requires Dispatches(acts)
          == WatchAll(cfg, Watched(M.World(EMPTY, c2Secret, [], [], {}), {}, {}), calls).world.events
    ensures var s := WatchAll(cfg, Watched(M.World(EMPTY, c2Secret, [], [], {}), {}, {}), calls);
      var box := Events.BoxOf(acts, size, l);
      var replayed := Replay(box.received + box.buffer);
      && (Linked(s.world.tables, name, topic) ==> (name, topic) in replayed)
      && (name !in s.goneClients && topic !in s.goneTopics ==>
            ((name, topic) in replayed <==> Linked(s.world.tables, name, topic)))
  {
    SeesEveryDispatch(acts, l);
    Events.NothingLostIffRoom(acts, size, l);
    EventsReplayToLinks(cfg, c2Secret, calls, name, topic);
  }
}
