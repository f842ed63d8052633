/**
 * The event dispatcher and its bounded listeners, internal/events, while one call at a time uses
 * them. Module Channels takes the three channel operations of Send apart.
 */
module Events {
  import opened Pages
  import M = Model

  type Event = M.Event

  const EVENT_CHAN_BUFFER_SIZE: nat := 100

  type Size = n: nat | n > 0 witness 1

  // ---- The channel and the listener list, on values

  /** One Send: a full buffer loses its oldest event. */
  function Offer(buffer: seq<Event>, size: Size, e: Event): seq<Event> {
    if |buffer| < size then buffer + [e] else buffer[1..] + [e]
  }

  function OfferTimes(buffer: seq<Event>, size: Size, e: Event, times: nat): seq<Event> {
    if times == 0 then buffer else Offer(OfferTimes(buffer, size, e, times - 1), size, e)
  }

  function RemoveFirst<T(==)>(s: seq<T>, x: T): seq<T> {
    if s == [] then [] else if s[0] == x then s[1..] else [s[0]] + RemoveFirst(s[1..], x)
  }

  ghost predicate FirstAt<T>(s: seq<T>, x: T, i: nat) {
    i < |s| && s[i] == x && x !in s[..i]
  }

  /** Exactly the first occurrence goes; everything else stays where it was in the order. */
  lemma {:induction false} RemovesTheFirst<T>(s: seq<T>, x: T, i: nat)
    requires FirstAt(s, x, i)
    ensures RemoveFirst(s, x) == s[..i] + s[i + 1..]
    ensures multiset(RemoveFirst(s, x)) == multiset(s) - multiset{x}
  {
    assert s == s[..i] + [x] + s[i + 1..];
    if i > 0 {
      assert s[0] in s[..i];
      assert s[1..][..i - 1] == s[..i][1..] && s[1..][i..] == s[i + 1..];
      RemovesTheFirst(s[1..], x, i - 1);
    }
  }

  lemma {:induction false} RemovesNothing<T>(s: seq<T>, x: T)
    requires x !in s
    ensures RemoveFirst(s, x) == s
  {
    if s != [] {
      RemovesNothing(s[1..], x);
    }
  }

  // ---- The objects

  class Listener {
    const size: Size
    const dispatcher: Dispatcher
    var c: seq<Event> // the buffered channel

    constructor (size: Size, dispatcher: Dispatcher)
      ensures this.size == size && this.dispatcher == dispatcher && c == []
    {
      this.size, this.dispatcher, c := size, dispatcher, [];
    }

    predicate Valid()
      reads this
    {
      |c| <= size
    }

    method Send(e: Event)
      requires Valid()
      modifies this`c
      ensures Valid() && c == Offer(old(c), size, e)
    {
      if |c| < size {
        c := c + [e];
      } else {
        c := c[1..];
        c := c + [e];
      }
    }

    /** A receive on C(); an empty result stands for a receive that waits. */
    method Receive() returns (e: seq<Event>)
      modifies this`c
      ensures old(Valid()) ==> Valid()
      ensures e + c == old(c) && |e| == Min(1, |old(c)|)
    {
      if c == [] {
        return [];
      }
      e, c := [c[0]], c[1..];
    }

    /** False stands for ErrListenerNotFound. */
    method Close() returns (found: bool)
      modifies dispatcher
      ensures found == (this in old(dispatcher.listeners))
      ensures dispatcher.listeners == RemoveFirst(old(dispatcher.listeners), this)
    {
      found := dispatcher.RemoveListener(this);
    }
  }

  /** Null stands for the panic on an unbuffered channel. */
  method NewListener(dispatcher: Dispatcher, size: nat) returns (lis: Listener?)
    modifies dispatcher
    ensures lis == null <==> size == 0
    ensures lis == null ==> dispatcher.listeners == old(dispatcher.listeners)
    ensures lis != null ==>
      && fresh(lis) && lis.Valid() && lis.size == size && lis.dispatcher == dispatcher && lis.c == []
      && dispatcher.listeners == old(dispatcher.listeners) + [lis]
  {
    if size == 0 {
      return null;
    }
    lis := new Listener(size, dispatcher);
    dispatcher.AddListener(lis);
  }

  class Dispatcher {
    var listeners: seq<Listener>

    constructor ()
      ensures listeners == []
    {
      listeners := [];
    }

    method AddListener(lis: Listener)
      modifies this
      ensures listeners == old(listeners) + [lis]
    {
      listeners := listeners + [lis];
    }

    method RemoveListener(l: Listener) returns (found: bool)
      modifies this
      ensures found == (l in old(listeners))
      ensures listeners == RemoveFirst(old(listeners), l)
    {
      for i := 0 to |listeners|
        invariant l !in listeners[..i]
        invariant listeners == old(listeners)
      {
        if listeners[i] == l {
          RemovesTheFirst(listeners, l, i);
          listeners := listeners[..i] + listeners[i + 1..];
          return true;
        }
      }
      RemovesNothing(listeners, l);
      return false;
    }

    /** A listener gets the event once for each place it has in the list; no other object changes. */
    method Dispatch(e: Event)
      requires forall l :: l in listeners ==> l.Valid()
      modifies (set l | l in listeners)`c
      ensures forall l :: l in listeners ==>
        l.Valid() && l.c == OfferTimes(old(l.c), l.size, e, multiset(listeners)[l])
    {
      hide Offer;
      for i := 0 to |listeners|
        invariant forall l :: l in listeners ==>
          l.Valid() && l.c == OfferTimes(old(l.c), l.size, e, multiset(listeners[..i])[l])
      {
        assert listeners[..i + 1] == listeners[..i] + [listeners[i]];
        listeners[i].Send(e);
      }
      assert listeners[..|listeners|] == listeners;
    }
  }

  // ---- Runs, over any number of listeners

  datatype Act<L> = Add(l: L) | Close(l: L) | Dispatch(e: Event) | Receive(l: L)

  function Registered<L(==)>(acts: seq<Act<L>>): seq<L> {
    if acts == [] then []
    else
      var before := Registered(acts[..|acts| - 1]);
      match acts[|acts| - 1]
      case Add(l) => before + [l]
      case Close(l) => RemoveFirst(before, l)
      case _ => before
  }

  /** What a listener still holds and what its reader has got. */
  datatype Box = Box(buffer: seq<Event>, received: seq<Event>)

  function BoxOf<L(==)>(acts: seq<Act<L>>, size: Size, l: L): Box {
    if acts == [] then Box([], [])
    else
      var front, last := acts[..|acts| - 1], acts[|acts| - 1];
      var box := BoxOf(front, size, l);
      match last
      case Dispatch(e) => box.(buffer := OfferTimes(box.buffer, size, e, multiset(Registered(front))[l]))
      case Receive(to) =>
        if to == l && box.buffer != [] then Box(box.buffer[1..], box.received + [box.buffer[0]]) else box
      case _ => box
  }

  /** The events dispatched while the listener was registered, once for each of its places. */
  function DispatchedTo<L(==)>(acts: seq<Act<L>>, l: L): seq<Event> {
    if acts == [] then []
    else
      var front, last := acts[..|acts| - 1], acts[|acts| - 1];
      DispatchedTo(front, l) + if last.Dispatch? then Repeat(last.e, multiset(Registered(front))[l]) else []
  }

  function Repeat(e: Event, times: nat): seq<Event> {
    seq(times, _ => e)
  }

  /** Some of the events of `whole`, in order: part[i] is whole[at[i]]. */
  ghost predicate Picks(part: seq<Event>, whole: seq<Event>, at: seq<nat>) {
    && |at| == |part|
    && (forall i :: 0 <= i < |at| ==> at[i] < |whole| && part[i] == whole[at[i]])
    && (forall i, j :: 0 <= i < j < |at| ==> at[i] < at[j])
  }

  ghost predicate Subsequence(part: seq<Event>, whole: seq<Event>) {
    exists at :: Picks(part, whole, at)
  }

  function Last(s: seq<Event>, n: nat): seq<Event> {
    s[|s| - Min(n, |s|)..]
  }

  lemma SubsequenceGrows(part: seq<Event>, whole: seq<Event>, more: seq<Event>)
    requires Subsequence(part, whole)
    ensures Subsequence(part, whole + more)
  {
    var at :| Picks(part, whole, at);
    assert Picks(part, whole + more, at);
  }

  lemma SubsequenceJoins(part: seq<Event>, whole: seq<Event>, tail: seq<Event>)
    requires Subsequence(part, whole)
    ensures Subsequence(part + tail, whole + tail)
  {
    var at :| Picks(part, whole, at);
    assert Picks(part + tail, whole + tail, at + seq(|tail|, i requires i >= 0 => |whole| + i));
  }

  /** What was sent is what left the buffer and what is in it; the reader saw some of the former, in order. */
  ghost predicate Boxed(box: Box, size: Size, offered: seq<Event>, gone: seq<Event>) {
    |box.buffer| <= size && offered == gone + box.buffer && Subsequence(box.received, gone)
  }

  /** Nothing left the buffer before it was full. */
  predicate KeptBusy(box: Box, size: Size, gone: seq<Event>) {
    gone == [] || |box.buffer| == size
  }

  lemma OfferStaysBoxed(box: Box, size: Size, offered: seq<Event>, gone: seq<Event>, e: Event)
    returns (gone': seq<Event>)
    requires Boxed(box, size, offered, gone)
    ensures var box' := box.(buffer := Offer(box.buffer, size, e));
      Boxed(box', size, offered + [e], gone') && (KeptBusy(box, size, gone) ==> KeptBusy(box', size, gone'))
  {
    if |box.buffer| < size {
      gone' := gone;
    } else {
      gone' := gone + [box.buffer[0]];
      SubsequenceGrows(box.received, gone, [box.buffer[0]]);
    }
  }

  lemma {:induction false} OffersStayBoxed(box: Box, size: Size, offered: seq<Event>, gone: seq<Event>,
                                           e: Event, times: nat)
    returns (gone': seq<Event>)
    requires Boxed(box, size, offered, gone)
    ensures var box' := box.(buffer := OfferTimes(box.buffer, size, e, times));
      && Boxed(box', size, offered + Repeat(e, times), gone')
      && (KeptBusy(box, size, gone) ==> KeptBusy(box', size, gone'))
  {
    if times == 0 {
      assert offered + Repeat(e, times) == offered;
      gone' := gone;
    } else {
      gone' := OffersStayBoxed(box, size, offered, gone, e, times - 1);
      var before := offered + Repeat(e, times - 1);
      gone' := OfferStaysBoxed(box.(buffer := OfferTimes(box.buffer, size, e, times - 1)), size, before, gone', e);
      assert before + [e] == offered + Repeat(e, times);
    }
  }

  lemma ReceiveStaysBoxed(box: Box, size: Size, offered: seq<Event>, gone: seq<Event>)
    requires Boxed(box, size, offered, gone) && box.buffer != []
    ensures Boxed(Box(box.buffer[1..], box.received + [box.buffer[0]]), size, offered, gone + [box.buffer[0]])
  {
    SubsequenceJoins(box.received, gone, [box.buffer[0]]);
  }

  lemma {:induction false} RunsStayBoxed<L>(acts: seq<Act<L>>, size: Size, l: L) returns (gone: seq<Event>)
    ensures Boxed(BoxOf(acts, size, l), size, DispatchedTo(acts, l), gone)
    ensures Receive(l) !in acts ==> KeptBusy(BoxOf(acts, size, l), size, gone)
  {
    gone := [];
    if acts == [] {
      assert Picks([], [], []);
    } else {
      var front, last := acts[..|acts| - 1], acts[|acts| - 1];
      gone := RunsStayBoxed(front, size, l);
      assert acts == front + [last];
      var box, offered := BoxOf(front, size, l), DispatchedTo(front, l);
      if last.Dispatch? {
        gone := OffersStayBoxed(box, size, offered, gone, last.e, multiset(Registered(front))[l]);
      } else if last == Receive(l) && box.buffer != [] {
        ReceiveStaysBoxed(box, size, offered, gone);
        gone := gone + [box.buffer[0]];
      }
    }
  }

  /**
   * Over every run of adds, closes, dispatches and receives: what a listener's reader got, followed
   * by what waits for it, are events dispatched while it was registered, in order; nothing newer
   * than the oldest waiting event is missing; and a reader that got nothing finds the newest ones.
   */
  lemma ReadersSeeTheNewest<L>(acts: seq<Act<L>>, size: Size, l: L)
    ensures var box, offered := BoxOf(acts, size, l), DispatchedTo(acts, l);
      && Subsequence(box.received + box.buffer, offered)
      && |box.buffer| <= Min(size, |offered|) && box.buffer == Last(offered, |box.buffer|)
      && (Receive(l) !in acts ==> box.buffer == Last(offered, size))
  {
    var gone := RunsStayBoxed(acts, size, l);
    var box, offered := BoxOf(acts, size, l), DispatchedTo(acts, l);
    SubsequenceJoins(box.received, gone, box.buffer);
    assert Last(offered, |box.buffer|) == box.buffer;
  }

  /** Every dispatch finds room for its event. */
  predicate Roomy<L(==)>(acts: seq<Act<L>>, size: Size, l: L) {
    if acts == [] then true
    else
      var front, last := acts[..|acts| - 1], acts[|acts| - 1];
      && Roomy(front, size, l)
      && (last.Dispatch? ==> |BoxOf(front, size, l).buffer| + multiset(Registered(front))[l] <= size)
  }

  lemma {:induction false} OffersFill(buffer: seq<Event>, size: Size, e: Event, times: nat)
    requires |buffer| <= size
    ensures |OfferTimes(buffer, size, e, times)| == Min(size, |buffer| + times)
    ensures |buffer| + times <= size ==> OfferTimes(buffer, size, e, times) == buffer + Repeat(e, times)
  {
    if times > 0 {
      OffersFill(buffer, size, e, times - 1);
    }
  }

  lemma {:induction false} LossIsOverflow<L>(acts: seq<Act<L>>, size: Size, l: L)
    ensures var box, offered := BoxOf(acts, size, l), DispatchedTo(acts, l);
      && |box.buffer| <= size
      && if Roomy(acts, size, l) then box.received + box.buffer == offered
         else |box.received| + |box.buffer| < |offered|
  {
    if acts != [] {
      var front, last := acts[..|acts| - 1], acts[|acts| - 1];
      hide OfferTimes;
      LossIsOverflow(front, size, l);
      if last.Dispatch? {
        OffersFill(BoxOf(front, size, l).buffer, size, last.e, multiset(Registered(front))[l]);
      }
    }
  }

  /** A reader misses nothing exactly when no dispatch ever found its buffer full. */
  lemma NothingLostIffRoom<L>(acts: seq<Act<L>>, size: Size, l: L)
    ensures var box := BoxOf(acts, size, l);
      box.received + box.buffer == DispatchedTo(acts, l) <==> Roomy(acts, size, l)
  {
    LossIsOverflow(acts, size, l);
  }

  /** Each add gives the listener one more place, each close takes one away if there is one; others keep theirs. */
  lemma PlacesCount<L>(acts: seq<Act<L>>, l: L, other: L)
    ensures var places := multiset(Registered(acts));
      && multiset(Registered(acts + [Add(l)]))[other] == places[other] + (if other == l then 1 else 0)
      && multiset(Registered(acts + [Close(l)]))[other] == places[other] - (if other == l && l in places then 1 else 0)
  {
    assert (acts + [Add(l)])[..|acts|] == acts && (acts + [Close(l)])[..|acts|] == acts;
    var places := Registered(acts);
    if l in places {
      var i := FirstIndex(places, l);
      RemovesTheFirst(places, l, i);
    } else {
      RemovesNothing(places, l);
    }
  }

  lemma {:induction false} FirstIndex<T>(s: seq<T>, x: T) returns (i: nat)
    requires x in s
    ensures FirstAt(s, x, i)
  {
    if s[0] == x {
      i := 0;
    } else {
      var j := FirstIndex(s[1..], x);
      i := j + 1;
      assert s[..i] == [s[0]] + s[1..][..j];
    }
  }

  function Reading<L>(l: L, n: nat): seq<Act<L>> {
    if n == 0 then [] else Reading(l, n - 1) + [Receive(l)]
  }

  lemma ReadOne<L>(acts: seq<Act<L>>, size: Size, l: L)
    ensures var box := BoxOf(acts, size, l);
      box.buffer != [] ==> BoxOf(acts + [Receive(l)], size, l) == Box(box.buffer[1..], box.received + [box.buffer[0]])
  {
    assert (acts + [Receive(l)])[..|acts|] == acts;
  }

  /** A reader that keeps reading gets what waits for it, oldest first, and leaves the rest. */
  lemma {:induction false} ReadingDrains<L>(acts: seq<Act<L>>, size: Size, l: L, n: nat)
    requires n <= |BoxOf(acts, size, l).buffer|
    ensures var box, box' := BoxOf(acts, size, l), BoxOf(acts + Reading(l, n), size, l);
      box'.received == box.received + box.buffer[..n] && box'.buffer == box.buffer[n..]
  {
    if n == 0 {
      assert acts + Reading(l, n) == acts;
    } else {
      hide BoxOf;
      ReadingDrains(acts, size, l, n - 1);
      ReadOne(acts + Reading(l, n - 1), size, l);
      assert acts + Reading(l, n) == acts + Reading(l, n - 1) + [Receive(l)];
    }
  }

  /** A listener that was never added, or was closed as often as added, keeps its buffer; any other gets the event. */
  lemma ClosedListenersGetNothing<L>(acts: seq<Act<L>>, size: Size, l: L, e: Event)
    ensures var box, box' := BoxOf(acts, size, l), BoxOf(acts + [Dispatch(e)], size, l);
      if l in Registered(acts) then box'.buffer != [] && box'.buffer[|box'.buffer| - 1] == e else box' == box
    ensures l !in Registered(acts) ==> DispatchedTo(acts + [Dispatch(e)], l) == DispatchedTo(acts, l)
    ensures l in Registered(acts) ==> e == Last(DispatchedTo(acts + [Dispatch(e)], l), 1)[0]
  {
    assert (acts + [Dispatch(e)])[..|acts|] == acts;
  }
}
