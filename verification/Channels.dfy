/**
 * Send taken apart: several dispatches may send to one listener at a time (they share a read lock
 * only), and its reader receives in between. A send tries to push; if the buffer is full it pops the
 * oldest event and then pushes. Pop and push wait when the buffer is empty or full.
 */
module Channels {
  import opened Wrappers
  import opened Events

  /** Where one goroutine is inside Send, and the event in its hand. */
  datatype Sender = Ready | Trying(e: Event) | Popping(e: Event) | Pushing(e: Event)
  {
    predicate Has(x: Event) {
      !Ready? && e == x
    }
  }

  /**
   * The buffer, the senders, and where every event went; `taken` counts receives since a try failed,
   * `pushed` and `left` are the events that entered and left the buffer, in order.
   */
  datatype State = State(
    buffer: seq<Event>,
    senders: seq<Sender>,
    sent: multiset<Event>,
    received: multiset<Event>,
    dropped: multiset<Event>,
    taken: nat,
    pushed: seq<Event>,
    left: seq<Event>)

  /** A new call of Send, one channel operation of a sender, or one receive. */
  datatype Move = Begin(k: nat, e: Event) | Go(k: nat) | Receive

  function Pushed(s: State, k: nat, e: Event): State
    requires k < |s.senders|
  {
    s.(buffer := s.buffer + [e], senders := s.senders[k := Ready], pushed := s.pushed + [e])
  }

  /** The sender's next channel operation; None when it waits. */
  function Operate(size: Size, s: State, k: nat): Option<State>
    requires k < |s.senders|
  {
    match s.senders[k]
    case Ready => None
    case Trying(e) =>
      if |s.buffer| < size then Some(Pushed(s, k, e))
      else Some(s.(senders := s.senders[k := Popping(e)], taken := 0))
    case Popping(e) =>
      if s.buffer == [] then None
      else Some(s.(buffer := s.buffer[1..], senders := s.senders[k := Pushing(e)],
                   dropped := s.dropped + multiset{s.buffer[0]}, left := s.left + [s.buffer[0]]))
    case Pushing(e) => if |s.buffer| < size then Some(Pushed(s, k, e)) else None
  }

  /** None when the move cannot happen now. */
  function Next(size: Size, s: State, m: Move): Option<State> {
    match m
    case Receive =>
      if s.buffer == [] then None
      else Some(s.(buffer := s.buffer[1..], received := s.received + multiset{s.buffer[0]},
                   taken := s.taken + 1, left := s.left + [s.buffer[0]]))
    case Begin(k, e) =>
      if k < |s.senders| && s.senders[k].Ready? then
        Some(s.(senders := s.senders[k := Trying(e)], sent := s.sent + multiset{e}))
      else None
    case Go(k) => if k < |s.senders| then Operate(size, s, k) else None
  }

  function Start(senders: nat): State {
    State([], seq(senders, _ => Ready), multiset{}, multiset{}, multiset{}, 0, [], [])
  }

  /** The state after all moves; None when one of them had to wait. */
  function After(size: Size, senders: nat, moves: seq<Move>): (r: Option<State>)
    ensures r.Some? ==> |r.value.senders| == senders
  {
    if moves == [] then Some(Start(senders))
    else
      match After(size, senders, moves[..|moves| - 1])
      case None => None
      case Some(s) => Next(size, s, moves[|moves| - 1])
  }

  /** A sender that nobody comes between. */
  function Whole(size: Size, s: State, k: nat, e: Event): Option<State> {
    match Next(size, s, Begin(k, e))
    case None => None
    case Some(begun) =>
      match Next(size, begun, Go(k))
      case None => None
      case Some(tried) =>
        if tried.senders[k].Ready? then Some(tried)
        else
          match Next(size, tried, Go(k))
          case None => None
          case Some(popped) => Next(size, popped, Go(k))
  }

  /** Send as one step, the way module Events has it, is what a sender does that nobody comes between. */
  lemma WholeSendOffers(size: Size, s: State, k: nat, e: Event)
    requires k < |s.senders| && s.senders[k].Ready? && |s.buffer| <= size
    ensures var r := Whole(size, s, k, e);
      && r.Some? && r.value.buffer == Offer(s.buffer, size, e) && r.value.senders == s.senders
      && r.value.dropped == s.dropped + multiset(if |s.buffer| < size then [] else [s.buffer[0]])
  {
    var begun := Next(size, s, Begin(k, e)).value;
    var tried := Next(size, begun, Go(k)).value;
    assert s.senders[k := Ready] == s.senders;
    if |s.buffer| == size {
      var popped := Next(size, tried, Go(k)).value;
      assert Next(size, popped, Go(k)).Some?;
    }
  }

  // ---- Conservation and the bound

  /** How many senders have the event in hand. */
  function InHand(senders: seq<Sender>, x: Event): nat {
    if senders == [] then 0
    else InHand(senders[..|senders| - 1], x) + if senders[|senders| - 1].Has(x) then 1 else 0
  }

  lemma {:induction false} HandChanges(senders: seq<Sender>, k: nat, now: Sender, x: Event)
    requires k < |senders|
    ensures InHand(senders[k := now], x) + (if senders[k].Has(x) then 1 else 0)
         == InHand(senders, x) + if now.Has(x) then 1 else 0
  {
    var n := |senders| - 1;
    if k < n {
      HandChanges(senders[..n], k, now, x);
      assert senders[k := now][..n] == senders[..n][k := now];
    } else {
      assert senders[k := now][..n] == senders[..n];
    }
  }

  ghost predicate Conserved(size: Size, s: State, x: Event) {
    && |s.buffer| <= size
    && s.sent[x] == s.received[x] + s.dropped[x] + multiset(s.buffer)[x] + InHand(s.senders, x)
  }

  lemma PopsOne(buffer: seq<Event>)
    ensures buffer != [] ==> multiset(buffer) == multiset{buffer[0]} + multiset(buffer[1..])
  {
    if buffer != [] {
      assert buffer == [buffer[0]] + buffer[1..];
    }
  }

  lemma OperationConserves(size: Size, s: State, k: nat, x: Event)
    requires Conserved(size, s, x) && k < |s.senders| && Operate(size, s, k).Some?
    ensures Conserved(size, Operate(size, s, k).value, x)
  {
    hide InHand;
    match s.senders[k]
    case Trying(e) => HandChanges(s.senders, k, if |s.buffer| < size then Ready else Popping(e), x);
    case Pushing(_) => HandChanges(s.senders, k, Ready, x);
    case Popping(e) =>
      HandChanges(s.senders, k, Pushing(e), x);
      PopsOne(s.buffer);
  }

  lemma MoveConserves(size: Size, s: State, m: Move, x: Event)
    requires Conserved(size, s, x) && Next(size, s, m).Some?
    ensures Conserved(size, Next(size, s, m).value, x)
  {
    match m
    case Receive => PopsOne(s.buffer);
    case Begin(k, e) => HandChanges(s.senders, k, Trying(e), x);
    case Go(k) => OperationConserves(size, s, k, x);
  }

  lemma {:induction false} NothingInHand(senders: nat, x: Event)
    ensures InHand(Start(senders).senders, x) == 0
  {
    if senders > 0 {
      NothingInHand(senders - 1, x);
      assert Start(senders).senders[..senders - 1] == Start(senders - 1).senders;
    }
  }

  /** Over every interleaving: the buffer stays within its size, and no event is lost or doubled. */
  lemma {:induction false} EventsAreConserved(size: Size, senders: nat, moves: seq<Move>, x: Event)
    requires After(size, senders, moves).Some?
    ensures var s := After(size, senders, moves).value;
      && |s.buffer| <= size
      && s.sent[x] == s.received[x] + s.dropped[x] + multiset(s.buffer)[x] + InHand(s.senders, x)
  {
    if moves == [] {
      NothingInHand(senders, x);
    } else {
      EventsAreConserved(size, senders, moves[..|moves| - 1], x);
      MoveConserves(size, After(size, senders, moves[..|moves| - 1]).value, moves[|moves| - 1], x);
    }
  }

  ghost predicate Ordered(s: State) {
    s.pushed == s.left + s.buffer && multiset(s.left) == s.received + s.dropped
  }

  lemma MoveOrders(size: Size, s: State, m: Move)
    requires Ordered(s) && Next(size, s, m).Some?
    ensures Ordered(Next(size, s, m).value)
  {
    if s.buffer != [] {
      assert s.left + s.buffer == s.left + [s.buffer[0]] + s.buffer[1..];
    }
  }

  /**
   * First in, first out, over every interleaving: what was received or dropped is what was pushed first,
   * in that order, and what was pushed after it waits in the buffer.
   */
  lemma {:induction false} OldestLeaveFirst(size: Size, senders: nat, moves: seq<Move>)
    requires After(size, senders, moves).Some?
    ensures var s := After(size, senders, moves).value;
      s.pushed == s.left + s.buffer && multiset(s.left) == s.received + s.dropped
  {
    if moves != [] {
      hide Next;
      OldestLeaveFirst(size, senders, moves[..|moves| - 1]);
      MoveOrders(size, After(size, senders, moves[..|moves| - 1]).value, moves[|moves| - 1]);
    }
  }

  /** Every receive of the run gave the reader one event, and nothing else did. */
  lemma {:induction false} ReceivesAreReceived(size: Size, senders: nat, moves: seq<Move>)
    requires After(size, senders, moves).Some?
    ensures |After(size, senders, moves).value.received| == multiset(moves)[Move.Receive]
  {
    if moves != [] {
      hide Next;
      ReceivesAreReceived(size, senders, moves[..|moves| - 1]);
      MoveReceives(size, After(size, senders, moves[..|moves| - 1]).value, moves[|moves| - 1]);
      LastCounts(moves);
    }
  }

  lemma MoveReceives(size: Size, s: State, m: Move)
    requires Next(size, s, m).Some?
    ensures |Next(size, s, m).value.received| == |s.received| + if m.Receive? then 1 else 0
  {
  }

  lemma LastCounts(moves: seq<Move>)
    requires moves != []
    ensures multiset(moves)[Move.Receive]
         == multiset(moves[..|moves| - 1])[Move.Receive] + if moves[|moves| - 1].Receive? then 1 else 0
  {
    assert moves == moves[..|moves| - 1] + [moves[|moves| - 1]];
  }

  // ---- Waiting, with one sender

  /** What one sender knows of the buffer between its failed try and its push. */
  ghost predicate Accounted(size: Size, s: State) {
    && |s.buffer| <= size && |s.senders| == 1
    && (s.senders[0].Popping? ==> |s.buffer| + s.taken == size)
    && (s.senders[0].Pushing? ==> |s.buffer| + s.taken == size - 1)
  }

  lemma MoveAccounts(size: Size, s: State, m: Move)
    requires Accounted(size, s) && Next(size, s, m).Some?
    ensures Accounted(size, Next(size, s, m).value)
  {
  }

  lemma {:induction false} OneSenderAccounts(size: Size, moves: seq<Move>)
    requires After(size, 1, moves).Some?
    ensures Accounted(size, After(size, 1, moves).value)
  {
    if moves != [] {
      OneSenderAccounts(size, moves[..|moves| - 1]);
      MoveAccounts(size, After(size, 1, moves[..|moves| - 1]).value, moves[|moves| - 1]);
    }
  }

  /** Nothing can move any more. */
  ghost predicate Stuck(size: Size, s: State) {
    forall m :: Next(size, s, m).None?
  }

  lemma UnstuckSender(size: Size, s: State, k: nat)
    requires s.buffer == [] && k < |s.senders| && !s.senders[k].Popping?
    ensures exists m :: Next(size, s, m).Some?
  {
    if s.senders[k].Ready? {
      assert Next(size, s, Begin(k, M.ClientSubscribed("", ""))).Some?;
    } else {
      assert Next(size, s, Go(k)).Some?;
    }
  }

  /** With any number of senders: nothing moves exactly when all of them want to pop from an empty buffer. */
  lemma StuckIff(size: Size, s: State)
    ensures Stuck(size, s) <==> s.buffer == [] && forall k :: 0 <= k < |s.senders| ==> s.senders[k].Popping?
  {
    if s.buffer != [] {
      assert Next(size, s, Move.Receive).Some?;
    } else if k :| 0 <= k < |s.senders| && !s.senders[k].Popping? {
      UnstuckSender(size, s, k);
    }
  }

  /**
   * One sender alone: its push never waits; its pop waits exactly when the reader took a whole
   * buffer of events since the try that failed, and then nothing moves any more.
   */
  lemma OneSenderWaitsIff(size: Size, moves: seq<Move>)
    requires After(size, 1, moves).Some?
    ensures var s := After(size, 1, moves).value;
      && (s.senders[0].Pushing? ==> Operate(size, s, 0).Some?)
      && (s.senders[0].Popping? ==> (Operate(size, s, 0).None? <==> s.taken == size))
      && (Stuck(size, s) <==> s.senders[0].Popping? && s.taken == size)
  {
    hide After, Stuck;
    OneSenderAccounts(size, moves);
    StuckIff(size, After(size, 1, moves).value);
  }

  // ---- Waiting, with several senders

  ghost predicate PopCanWait(size: Size, senders: nat, moves: seq<Move>) {
    var r := After(size, senders, moves);
    r.Some? && exists k :: 0 <= k < senders && r.value.senders[k].Popping? && Operate(size, r.value, k).None?
  }

  ghost predicate PushCanWait(size: Size, senders: nat, moves: seq<Move>) {
    var r := After(size, senders, moves);
    r.Some? && exists k :: 0 <= k < senders && r.value.senders[k].Pushing? && Operate(size, r.value, k).None?
  }

  /** Sender 0 sends into a buffer with room until it is full. */
  function Filling(e: Event, n: nat): seq<Move> {
    if n == 0 then [] else Filling(e, n - 1) + [Begin(0, e), Go(0)]
  }

  lemma AfterOne(size: Size, senders: nat, moves: seq<Move>, m: Move)
    ensures After(size, senders, moves + [m])
         == if After(size, senders, moves).None? then None else Next(size, After(size, senders, moves).value, m)
  {
    assert (moves + [m])[..|moves|] == moves;
  }

  lemma OneByOne(moves: seq<Move>, m: Move, last: Move)
    ensures moves + [m, last] == moves + [m] + [last]
  {
  }

  lemma AfterTwo(size: Size, senders: nat, moves: seq<Move>, m: Move, last: Move)
    requires After(size, senders, moves).Some? && Next(size, After(size, senders, moves).value, m).Some?
    ensures After(size, senders, moves + [m, last])
         == Next(size, Next(size, After(size, senders, moves).value, m).value, last)
  {
    hide *;
    OneByOne(moves, m, last);
    AfterOne(size, senders, moves, m);
    AfterOne(size, senders, moves + [m], last);
  }

  ghost predicate AllReady(s: State, senders: nat) {
    |s.senders| == senders && forall k :: 0 <= k < senders ==> s.senders[k].Ready?
  }

  lemma OneMore(size: Size, senders: nat, s: State, e: Event)
    requires senders > 0 && AllReady(s, senders) && |s.buffer| < size
    ensures var begun := Next(size, s, Begin(0, e));
      && begun.Some?
      && var r := Next(size, begun.value, Go(0));
         r.Some? && AllReady(r.value, senders) && |r.value.buffer| == |s.buffer| + 1
  {
    var begun := Next(size, s, Begin(0, e)).value;
    assert Next(size, begun, Go(0)).value.senders == begun.senders[0 := Ready];
  }

  lemma {:induction false} FillingFills(size: Size, senders: nat, e: Event, n: nat)
    requires senders > 0 && n <= size
    ensures var r := After(size, senders, Filling(e, n));
      r.Some? && |r.value.buffer| == n && AllReady(r.value, senders)
  {
    if n > 0 {
      hide Next, After, AllReady;
      FillingFills(size, senders, e, n - 1);
      OneMore(size, senders, After(size, senders, Filling(e, n - 1)).value, e);
      AfterTwo(size, senders, Filling(e, n - 1), Begin(0, e), Go(0));
    }
  }

  /** Sender 0 pops, and sender 1 takes the room it made. */
  function Overtaking(size: Size, e: Event): seq<Move> {
    Filling(e, size) + [Begin(0, e)] + [Go(0)] + [Go(0)] + [Begin(1, e)] + [Go(1)]
  }

  lemma OvertakenWaits(size: Size, senders: nat, e: Event)
    requires senders >= 2
    ensures PushCanWait(size, senders, Overtaking(size, e))
  {
    FillingFills(size, senders, e, size);
    var a := Filling(e, size);
    AfterOne(size, senders, a, Begin(0, e));
    AfterOne(size, senders, a + [Begin(0, e)], Go(0));
    AfterOne(size, senders, a + [Begin(0, e)] + [Go(0)], Go(0));
    AfterOne(size, senders, a + [Begin(0, e)] + [Go(0)] + [Go(0)], Begin(1, e));
    AfterOne(size, senders, a + [Begin(0, e)] + [Go(0)] + [Go(0)] + [Begin(1, e)], Go(1));
    assert After(size, senders, Overtaking(size, e)).value.senders[0].Pushing?;
  }

  lemma OnePushNeverWaits(size: Size, senders: nat, moves: seq<Move>)
    requires senders < 2
    ensures !PushCanWait(size, senders, moves)
  {
    hide Operate;
    if senders == 1 && After(size, 1, moves).Some? {
      OneSenderWaitsIff(size, moves);
    }
  }

  /** Whatever the size of the buffer, a push can be made to wait exactly when two senders can meet. */
  lemma PushesWaitIff(size: Size, senders: nat)
    ensures (exists moves :: PushCanWait(size, senders, moves)) <==> senders >= 2
  {
    if senders >= 2 {
      OvertakenWaits(size, senders, M.ClientSubscribed("", ""));
    } else {
      forall moves ensures !PushCanWait(size, senders, moves) {
        OnePushNeverWaits(size, senders, moves);
      }
    }
  }

  /** The buffer is full and the first k senders failed their try. */
  function Failing(size: Size, e: Event, k: nat): seq<Move> {
    if k == 0 then Filling(e, size) else Failing(size, e, k - 1) + [Begin(k - 1, e), Go(k - 1)]
  }

  ghost predicate Failed(s: State, senders: nat, k: nat) {
    && |s.senders| == senders
    && forall i :: 0 <= i < senders ==> if i < k then s.senders[i].Popping? else s.senders[i].Ready?
  }

  lemma OneMoreFails(size: Size, senders: nat, s: State, e: Event, k: nat)
    requires 0 < k <= senders && Failed(s, senders, k - 1) && |s.buffer| == size
    ensures var begun := Next(size, s, Begin(k - 1, e));
      && begun.Some?
      && var r := Next(size, begun.value, Go(k - 1));
         r.Some? && Failed(r.value, senders, k) && |r.value.buffer| == size
  {
    var begun := Next(size, s, Begin(k - 1, e)).value;
    assert Next(size, begun, Go(k - 1)).value.senders == begun.senders[k - 1 := Popping(e)];
  }

  lemma {:induction false} FailingFails(size: Size, senders: nat, e: Event, k: nat)
    requires senders > 0 && k <= senders
    ensures var r := After(size, senders, Failing(size, e, k));
      r.Some? && |r.value.buffer| == size && Failed(r.value, senders, k)
  {
    if k == 0 {
      FillingFills(size, senders, e, size);
    } else {
      hide Next, After, Failed;
      FailingFails(size, senders, e, k - 1);
      OneMoreFails(size, senders, After(size, senders, Failing(size, e, k - 1)).value, e, k);
      AfterTwo(size, senders, Failing(size, e, k - 1), Begin(k - 1, e), Go(k - 1));
    }
  }

  /** Then the reader takes n events before any of the senders pops. */
  function Draining(size: Size, e: Event, senders: nat, n: nat): seq<Move> {
    if n == 0 then Failing(size, e, senders) else Draining(size, e, senders, n - 1) + [Move.Receive]
  }

  lemma {:induction false} DrainingDrains(size: Size, senders: nat, e: Event, n: nat)
    requires senders > 0 && n <= size
    ensures var r := After(size, senders, Draining(size, e, senders, n));
      r.Some? && |r.value.buffer| == size - n && Failed(r.value, senders, senders)
  {
    if n == 0 {
      FailingFails(size, senders, e, senders);
    } else {
      DrainingDrains(size, senders, e, n - 1);
      AfterOne(size, senders, Draining(size, e, senders, n - 1), Move.Receive);
    }
  }

  /** However many senders there are, a reader that drains the buffer at the wrong moment stops them all for good. */
  lemma SendersCanGetStuck(size: Size, senders: nat, e: Event) returns (moves: seq<Move>)
    requires senders > 0
    ensures var r := After(size, senders, moves);
      r.Some? && Stuck(size, r.value) && PopCanWait(size, senders, moves)
  {
    moves := Draining(size, e, senders, size);
    DrainingDrains(size, senders, e, size);
    var s := After(size, senders, moves).value;
    StuckIff(size, s);
    assert s.senders[0].Popping? && Operate(size, s, 0).None?;
  }

  /** A pop can be made to wait as soon as there is one sender. */
  lemma PopsWaitIff(size: Size, senders: nat)
    ensures (exists moves :: PopCanWait(size, senders, moves)) <==> senders >= 1
  {
    if senders >= 1 {
      var moves := SendersCanGetStuck(size, senders, M.ClientSubscribed("", ""));
    }
  }
}
