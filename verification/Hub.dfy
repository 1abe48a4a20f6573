/** The websocket hub: one event loop that fans messages out to bounded client channels, and the write
    pumps that empty them, all interleaved. */
module Hub {
  import opened Prelude

  type Id = nat
  type Message = string

  const CAPACITY := 256

  /** Where a write pump stands; `frame` is what it has written into the current frame. */
  datatype Pump = Idle | Opened(frame: seq<Message>) | Draining(frame: seq<Message>, left: nat) | Finished(frame: seq<Message>)
  {
    function Written(): seq<Message> {
      if Idle? then [] else frame
    }
  }

  /** A client: its channel, and what its pump received from it and sent out. */
  datatype Client = Client(queue: seq<Message>, open: bool, got: seq<Message>, sent: seq<seq<Message>>, pump: Pump)

  const FRESH := Client([], true, [], [], Idle)

  /** `todo` are the clients the current broadcast has still to visit.  `log` and `joined` only record
      history: every broadcast so far, and how many there had been when a client registered. */
  datatype State = State(
    clients: set<Id>,
    peers: map<Id, Client>,
    todo: set<Id>,
    panicked: bool,
    log: seq<Message>,
    joined: map<Id, nat>)

  const START := State({}, map[], {}, false, [], map[])

  datatype Event =
    | Register(id: Id) | Unregister(id: Id) | Broadcast(m: Message) | Offer(id: Id)
    | First(id: Id) | CountQueued(id: Id) | More(id: Id) | Flush(id: Id) | Die(id: Id)

  function Peer(s: State, id: Id): Client {
    if id in s.peers then s.peers[id] else FRESH
  }

  /** A receive returns at once when something is queued or the channel is closed. */
  predicate CanReceive(c: Client) {
    c.queue != [] || !c.open
  }

  predicate OfPump(e: Event) {
    e.First? || e.CountQueued? || e.More? || e.Flush? || e.Die?
  }

  predicate CanPump(c: Client, e: Event) {
    match e
    case First(_) => c.pump.Idle? && CanReceive(c)
    case CountQueued(_) => c.pump.Opened?
    case More(_) => c.pump.Draining? && c.pump.left > 0 && CanReceive(c)
    case Flush(_) => c.pump.Draining? && c.pump.left == 0
    case Die(_) => !c.pump.Finished?
    case _ => false
  }

  predicate Enabled(s: State, e: Event) {
    && !s.panicked
    && match e
       case Register(_) => s.todo == {}
       case Unregister(_) => s.todo == {}
       case Broadcast(_) => s.todo == {}
       case Offer(id) => id in s.todo && s.log != []
       case _ => CanPump(Peer(s, e.id), e)
  }

  /** A pump's own step on its client.  A receive from a closed and empty channel gives an empty message. */
  function Pumped(c: Client, e: Event): Client {
    match e
    case First(_) =>
      if c.queue == [] then c.(pump := Finished([]))
      else c.(queue := c.queue[1..], got := c.got + [c.queue[0]], pump := Opened([c.queue[0]]))
    case CountQueued(_) => c.(pump := Draining(c.pump.Written(), |c.queue|))
    case More(_) =>
      var left := if c.pump.Draining? && c.pump.left > 0 then c.pump.left - 1 else 0;
      if c.queue == [] then c.(pump := Draining(c.pump.Written() + [""], left))
      else c.(queue := c.queue[1..], got := c.got + [c.queue[0]],
              pump := Draining(c.pump.Written() + [c.queue[0]], left))
    case Flush(_) => c.(sent := c.sent + [c.pump.Written()], pump := Idle)
    case Die(_) => c.(pump := Finished(c.pump.Written()))
    case _ => c
  }

  /** Closing a closed channel panics, and so does sending on one. */
  function Close(s: State, id: Id): State {
    if Peer(s, id).open then
      s.(clients := s.clients - {id}, peers := s.peers[id := Peer(s, id).(open := false)])
    else s.(panicked := true)
  }

  function Offered(s: State, id: Id): State
    requires s.log != []
  {
    var c, m := Peer(s, id), s.log[|s.log| - 1];
    var rest := s.(todo := s.todo - {id});
    if !c.open then rest.(panicked := true)
    else if |c.queue| < CAPACITY then rest.(peers := s.peers[id := c.(queue := c.queue + [m])])
    else Close(rest, id)
  }

  function Do(s: State, e: Event): State
    requires Enabled(s, e)
  {
    match e
    case Register(id) => s.(clients := s.clients + {id}, joined := s.joined[id := |s.log|])
    case Unregister(id) => if id in s.clients then Close(s, id) else s
    case Broadcast(m) => s.(todo := s.clients, log := s.log + [m])
    case Offer(id) => Offered(s, id)
    case _ => s.(peers := s.peers[e.id := Pumped(Peer(s, e.id), e)])
  }

  /** A step of a run in which every client registers at most once. */
  predicate Proper(s: State, e: Event) {
    Enabled(s, e) && (e.Register? ==> e.id !in s.joined)
  }

  ghost predicate IsRun(s: State, es: seq<Event>, s': State)
    decreases |es|
  {
    if es == [] then s' == s else Proper(s, es[0]) && IsRun(Do(s, es[0]), es[1..], s')
  }

  ghost predicate Reachable(s: State) {
    exists es :: IsRun(START, es, s)
  }

  // -------- What holds in every reachable state

  datatype Stage = New | Behind | Present | Removed

  function StageOf(s: State, id: Id): Stage {
    if id !in s.joined then New else if id in s.todo then Behind else if id in s.clients then Present else Removed
  }

  /** The broadcasts since a client registered. */
  function Due(s: State, id: Id): seq<Message> {
    if id in s.joined && s.joined[id] <= |s.log| then s.log[s.joined[id]..] else []
  }

  predicate Fits(c: Client, stage: Stage, due: seq<Message>) {
    match stage
    case New => c.open && c.got == [] && c.queue == []
    case Behind => c.open && due != [] && c.got + c.queue == due[..|due| - 1]
    case Present => c.open && c.got + c.queue == due
    case Removed => !c.open && c.got + c.queue <= due
  }

  function Flat(frames: seq<seq<Message>>): seq<Message> {
    if frames == [] then [] else Flat(frames[..|frames| - 1]) + frames[|frames| - 1]
  }

  predicate PumpFits(c: Client) {
    && |c.queue| <= CAPACITY
    && (c.pump.Draining? ==> c.pump.left <= |c.queue|)
    && Flat(c.sent) + c.pump.Written() == c.got
  }

  predicate Members(clients: set<Id>, todo: set<Id>, joined: map<Id, nat>, n: nat) {
    && todo <= clients
    && (forall id <- clients :: id in joined)
    && (forall id <- joined :: joined[id] <= n)
    && (forall id <- todo :: id in joined && joined[id] < n)
  }

  ghost predicate Inv(s: State) {
    && !s.panicked
    && Members(s.clients, s.todo, s.joined, |s.log|)
    && (forall id: Id :: Fits(Peer(s, id), StageOf(s, id), Due(s, id)))
    && (forall id: Id :: PumpFits(Peer(s, id)))
  }

  /** A receive moves the head of the queue to what the pump got and into its frame. */
  lemma ReceiveFits(c: Client, pump: Pump, stage: Stage, due: seq<Message>)
    requires Fits(c, stage, due) && PumpFits(c) && c.queue != []
    requires pump.Written() == c.pump.Written() + [c.queue[0]]
    requires pump.Draining? ==> pump.left < |c.queue|
    ensures var c' := c.(queue := c.queue[1..], got := c.got + [c.queue[0]], pump := pump);
      Fits(c', stage, due) && PumpFits(c')
  {
    var m, rest := [c.queue[0]], c.queue[1..];
    assert c.queue == m + rest;
    assert c.got + (m + rest) == (c.got + m) + rest;
    assert Flat(c.sent) + (c.pump.Written() + m) == (Flat(c.sent) + c.pump.Written()) + m;
  }

  lemma OtherPumpStepFits(c: Client, e: Event, stage: Stage, due: seq<Message>)
    requires CanPump(c, e) && (c.queue == [] || e.CountQueued? || e.Flush? || e.Die?)
    requires Fits(c, stage, due) && PumpFits(c)
    ensures Fits(Pumped(c, e), stage, due) && PumpFits(Pumped(c, e))
  {
    if e.Flush? {
      assert (c.sent + [c.pump.Written()])[..|c.sent|] == c.sent;
      assert Flat(c.sent) + c.pump.Written() + [] == Flat(c.sent) + c.pump.Written();
    }
  }

  lemma OfferFits(c: Client, due: seq<Message>, m: Message)
    requires Fits(c, Behind, due) && due[|due| - 1] == m
    ensures Fits(c.(queue := c.queue + [m]), Present, due)
    ensures Fits(c.(open := false), Removed, due)
  {
    assert due == due[..|due| - 1] + [m];
    assert c.got + (c.queue + [m]) == (c.got + c.queue) + [m];
  }

  lemma StartFits(s: State, m: Message)
    requires Inv(s) && s.todo == {}
    ensures var s' := Do(s, Broadcast(m)); forall id: Id :: Fits(Peer(s', id), StageOf(s', id), Due(s', id))
  {
    forall id: Id
      ensures var s' := Do(s, Broadcast(m)); Fits(Peer(s', id), StageOf(s', id), Due(s', id))
    {
      var s', c, due := Do(s, Broadcast(m)), Peer(s, id), Due(s, id);
      assert Fits(c, StageOf(s, id), due);
      if id in s.joined {
        assert s.joined[id] <= |s.log|;
        assert Due(s', id) == due + [m];
      }
    }
  }

  lemma RegisterFits(s: State, newcomer: Id)
    requires Inv(s) && s.todo == {} && newcomer !in s.joined
    ensures var s' := Do(s, Register(newcomer)); forall id: Id :: Fits(Peer(s', id), StageOf(s', id), Due(s', id))
  {
    forall id: Id
      ensures var s' := Do(s, Register(newcomer)); Fits(Peer(s', id), StageOf(s', id), Due(s', id))
    {
      assert Fits(Peer(s, id), StageOf(s, id), Due(s, id));
    }
  }

  lemma OfferedFits(s: State, to: Id)
    requires Inv(s) && Enabled(s, Offer(to))
    ensures !Do(s, Offer(to)).panicked
    ensures var s' := Do(s, Offer(to));
      forall id: Id :: Fits(Peer(s', id), StageOf(s', id), Due(s', id)) && PumpFits(Peer(s', id))
  {
    forall id: Id
      ensures var s' := Do(s, Offer(to)); !s'.panicked && Fits(Peer(s', id), StageOf(s', id), Due(s', id)) && PumpFits(Peer(s', id))
    {
      var c, due := Peer(s, to), Due(s, to);
      assert Fits(c, StageOf(s, to), due) && PumpFits(c);
      assert StageOf(s, to) == Behind;
      if id == to {
        OfferedTarget(s, to);
        OfferFits(c, due, s.log[|s.log| - 1]);
      } else {
        OfferedOthers(s, to, id);
      }
    }
  }

  lemma OfferedTarget(s: State, to: Id)
    requires Enabled(s, Offer(to)) && to in s.joined && Peer(s, to).open && s.todo <= s.clients
    ensures var s', c := Do(s, Offer(to)), Peer(s, to);
      && !s'.panicked && Due(s', to) == Due(s, to)
      && Peer(s', to) == (if |c.queue| < CAPACITY then c.(queue := c.queue + [s.log[|s.log| - 1]]) else c.(open := false))
      && StageOf(s', to) == (if |c.queue| < CAPACITY then Present else Removed)
  {
  }

  lemma OfferedOthers(s: State, to: Id, id: Id)
    requires Inv(s) && Enabled(s, Offer(to)) && id != to
    ensures var s' := Do(s, Offer(to));
      Peer(s', id) == Peer(s, id) && StageOf(s', id) == StageOf(s, id) && Due(s', id) == Due(s, id)
    ensures Fits(Peer(s, id), StageOf(s, id), Due(s, id)) && PumpFits(Peer(s, id))
  {
  }

  lemma UnregisterFits(s: State, gone: Id)
    requires Inv(s) && Enabled(s, Unregister(gone))
    ensures !Do(s, Unregister(gone)).panicked
    ensures var s' := Do(s, Unregister(gone));
      forall id: Id :: Fits(Peer(s', id), StageOf(s', id), Due(s', id)) && PumpFits(Peer(s', id))
  {
    forall id: Id
      ensures var s' := Do(s, Unregister(gone)); !s'.panicked && Fits(Peer(s', id), StageOf(s', id), Due(s', id)) && PumpFits(Peer(s', id))
    {
      assert Fits(Peer(s, id), StageOf(s, id), Due(s, id)) && PumpFits(Peer(s, id));
      assert Fits(Peer(s, gone), StageOf(s, gone), Due(s, gone));
    }
  }

  lemma PumpedFits(s: State, e: Event)
    requires Inv(s) && Enabled(s, e) && OfPump(e)
    ensures var s' := Do(s, e); forall id: Id :: Fits(Peer(s', id), StageOf(s', id), Due(s', id)) && PumpFits(Peer(s', id))
  {
    forall id: Id
      ensures var s' := Do(s, e); Fits(Peer(s', id), StageOf(s', id), Due(s', id)) && PumpFits(Peer(s', id))
    {
      assert Fits(Peer(s, id), StageOf(s, id), Due(s, id)) && PumpFits(Peer(s, id));
      var s' := Do(s, e);
      assert StageOf(s', id) == StageOf(s, id) && Due(s', id) == Due(s, id);
      if id == e.id {
        var c := Peer(s, id);
        if (e.First? || e.More?) && c.queue != [] {
          assert [] + [c.queue[0]] == [c.queue[0]];
          ReceiveFits(c, Pumped(c, e).pump, StageOf(s, id), Due(s, id));
        } else {
          OtherPumpStepFits(c, e, StageOf(s, id), Due(s, id));
        }
        assert Peer(s', id) == Pumped(Peer(s, id), e);
      } else {
        assert Peer(s', id) == Peer(s, id);
      }
    }
  }

  lemma StepKeepsInv(s: State, e: Event)
    requires Inv(s) && Proper(s, e)
    ensures Inv(Do(s, e))
  {
    hide Fits, PumpFits, Due, StageOf, Pumped;
    match e {
      case Register(x) =>
        RegisterFits(s, x);
        PumpsAlike(s, Do(s, e));
      case Unregister(x) => UnregisterFits(s, x);
      case Broadcast(m) =>
        StartFits(s, m);
        PumpsAlike(s, Do(s, e));
      case Offer(x) => OfferedFits(s, x);
      case _ => PumpedFits(s, e);
    }
  }

  lemma PumpsAlike(s: State, s': State)
    requires Inv(s) && s'.peers == s.peers
    ensures forall id: Id :: PumpFits(Peer(s', id))
  {
    forall id: Id
      ensures PumpFits(Peer(s', id))
    {
      assert Peer(s', id) == Peer(s, id) && PumpFits(Peer(s, id));
    }
  }

  lemma {:induction false} RunKeepsInv(s: State, es: seq<Event>)
    requires Inv(s)
    ensures forall s' :: IsRun(s, es, s') ==> Inv(s')
    decreases |es|
  {
    hide Inv;
    if es != [] && Proper(s, es[0]) {
      StepKeepsInv(s, es[0]);
      RunKeepsInv(Do(s, es[0]), es[1..]);
    }
  }

  lemma ReachableIsSafe(s: State)
    requires Reachable(s)
    ensures Inv(s)
  {
    var es :| IsRun(START, es, s);
    RunKeepsInv(START, es);
  }

  // -------- The hub's promises, over every run in which each client registers once

  /** A registered client is in the map exactly while its channel is open; nothing ever panics. */
  lemma InMapIffOpen(s: State, id: Id)
    requires Reachable(s)
    ensures !s.panicked
    ensures id in s.joined ==> (id in s.clients <==> Peer(s, id).open)
    ensures id !in s.joined ==> id !in s.clients && Peer(s, id).queue == []
  {
    ReachableIsSafe(s);
    assert Fits(Peer(s, id), StageOf(s, id), Due(s, id));
  }

  /** Between broadcasts a present client has received or has queued every broadcast since it registered,
      and a removed one the first few of them. */
  lemma NoGaps(s: State, id: Id)
    requires Reachable(s) && id in s.joined && s.todo == {}
    ensures s.joined[id] <= |s.log|
    ensures var seen, due := Peer(s, id).got + Peer(s, id).queue, s.log[s.joined[id]..];
      if id in s.clients then seen == due else seen <= due
  {
    ReachableIsSafe(s);
    assert Fits(Peer(s, id), StageOf(s, id), Due(s, id));
  }

  /** An offer removes a client exactly when 256 messages wait for it, and gives it the message otherwise. */
  lemma OfferRemovesIff(s: State, id: Id)
    requires Reachable(s) && Enabled(s, Offer(id))
    ensures var s' := Do(s, Offer(id));
      && (id !in s'.clients <==> |Peer(s, id).queue| == 256)
      && (id in s'.clients ==> Peer(s', id).queue == Peer(s, id).queue + [s.log[|s.log| - 1]])
  {
    ReachableIsSafe(s);
    assert Fits(Peer(s, id), StageOf(s, id), Due(s, id)) && PumpFits(Peer(s, id));
  }

  /** The frames regroup what the pump received: nothing lost, added or reordered; on an error only the
      frame in progress is missing. */
  lemma FramesRegroup(s: State, id: Id)
    requires Reachable(s)
    ensures var c := Peer(s, id); Flat(c.sent) + c.pump.Written() == c.got
  {
    ReachableIsSafe(s);
    assert PumpFits(Peer(s, id));
  }

  /** The receives inside a frame neither block nor meet a closed empty channel, even after the close. */
  lemma InnerReceiveFindsAMessage(s: State, id: Id)
    requires Reachable(s) && Peer(s, id).pump.Draining? && Peer(s, id).pump.left > 0
    ensures Enabled(s, More(id)) && Peer(s, id).queue != []
  {
    ReachableIsSafe(s);
    assert PumpFits(Peer(s, id));
  }

  /** A pump that meets the close has sent out everything that was ever queued for its client. */
  lemma CloseComesLast(s: State, id: Id)
    requires Reachable(s) && Enabled(s, First(id)) && Do(s, First(id)).peers[id].pump.Finished?
    ensures Flat(Peer(s, id).sent) == Peer(s, id).got <= Due(s, id) && id !in s.clients
  {
    ReachableIsSafe(s);
    assert Fits(Peer(s, id), StageOf(s, id), Due(s, id)) && PumpFits(Peer(s, id));
    assert Peer(s, id).got + [] == Peer(s, id).got;
  }

  /** Registering once matters: a client that comes back after its removal brings the hub down at its next
      unregistration or broadcast, and only such a client does. */
  lemma ComingBackPanicsIff(s: State, id: Id, m: Message)
    requires Reachable(s) && !s.panicked && s.todo == {}
    ensures var s1 := Do(s, Register(id));
      && (Do(s1, Unregister(id)).panicked <==> id in s.joined && id !in s.clients)
      && (Do(Do(s1, Broadcast(m)), Offer(id)).panicked <==> id in s.joined && id !in s.clients)
  {
    ReachableIsSafe(s);
    assert Fits(Peer(s, id), StageOf(s, id), Due(s, id));
  }

  // -------- The loops themselves, with the other goroutines in between

  datatype Role = Loop | WritePump(id: Id)

  predicate IsMine(me: Role, e: Event) {
    if me.Loop? then !OfPump(e) else OfPump(e) && e.id == me.id
  }

  /** The steps of `me` in a run. */
  function Mine(me: Role, es: seq<Event>): seq<Event> {
    if es == [] then []
    else Mine(me, es[..|es| - 1]) + if IsMine(me, es[|es| - 1]) then [es[|es| - 1]] else []
  }

  lemma {:induction false} RunOneMore(s: State, es: seq<Event>, s1: State, e: Event)
    requires IsRun(s, es, s1) && Proper(s1, e)
    ensures IsRun(s, es + [e], Do(s1, e))
    decreases |es|
  {
    if es == [] {
      assert (es + [e])[1..] == [];
      assert IsRun(Do(s1, e), [], Do(s1, e));
    } else {
      RunOneMore(Do(s, es[0]), es[1..], s1, e);
      assert (es + [e])[1..] == es[1..] + [e];
    }
  }

  /** What the others may do to a client while its pump waits: append to its queue and close it. */
  predicate Waited(c: Client, c': Client) {
    c'.pump == c.pump && c'.got == c.got && c'.sent == c.sent && c.queue <= c'.queue && (!c.open ==> !c'.open)
  }

  lemma OthersOnlyAppend(s: State, id: Id, e: Event)
    requires Proper(s, e) && !IsMine(WritePump(id), e)
    ensures Waited(Peer(s, id), Peer(Do(s, e), id))
  {
  }

  predicate Received(c: Client, c': Client) {
    && c.queue != [] && c.pump.Draining? && c.pump.left > 0
    && c'.pump == Draining(c.pump.frame + [c.queue[0]], c.pump.left - 1)
    && c'.queue == c.queue[1..] && c'.got == c.got + [c.queue[0]] && c'.sent == c.sent
  }

  /** From c to c' the pump read `read` into its frame, and it read from the front. */
  predicate HasRead(c: Client, c': Client, read: seq<Message>) {
    && c.pump.Draining? && |read| <= c.pump.left
    && c'.pump == Draining(c.pump.frame + read, c.pump.left - |read|)
    && c'.got == c.got + read && c'.sent == c.sent && c.queue <= read + c'.queue
  }

  lemma ReadsOneMore(c: Client, read: seq<Message>, c1: Client, c2: Client, c3: Client)
    requires HasRead(c, c1, read) && Waited(c1, c2) && Received(c2, c3)
    ensures HasRead(c, c3, read + [c2.queue[0]])
  {
    var m := [c2.queue[0]];
    assert c.pump.frame + read + m == c.pump.frame + (read + m);
    assert c.got + read + m == c.got + (read + m);
    assert c.queue <= read + c1.queue <= read + c2.queue;
    assert (read + m) + c2.queue[1..] == read + c2.queue;
  }

  lemma {:induction false} MineOneMore(me: Role, es: seq<Event>, e: Event)
    ensures Mine(me, es + [e]) == Mine(me, es) + if IsMine(me, e) then [e] else []
  {
    assert (es + [e])[..|es|] == es;
  }

  function Offers(order: seq<Id>): seq<Event> {
    if order == [] then [] else Offers(order[..|order| - 1]) + [Offer(order[|order| - 1])]
  }

  lemma OffersOneMore(order: seq<Id>, id: Id)
    ensures Offers(order + [id]) == Offers(order) + [Offer(id)]
  {
    assert (order + [id])[..|order|] == order;
  }

  /** A frame that opens with the first message and then reads what was queued holds the whole queue. */
  lemma FrameHolds(c: Client, c1: Client, c2: Client, read: seq<Message>, c3: Client)
    requires c.queue != [] && c1.pump == Opened([c.queue[0]]) && c1.queue == c.queue[1..]
    requires c1.got == c.got + [c.queue[0]] && c1.queue <= c2.queue && c2.got == c1.got
    requires c2.pump == Draining([c.queue[0]], |c2.queue|) && HasRead(c2, c3, read) && |read| == |c2.queue|
    ensures c.queue <= c3.pump.frame && c3.got == c.got + c3.pump.frame
  {
    assert c.queue == [c.queue[0]] + c1.queue;
    assert c2.queue <= read;
    assert c3.got == (c.got + [c.queue[0]]) + read == c.got + ([c.queue[0]] + read);
  }

  class Hub {
    var s: State
    ghost var trace: seq<Event>

    ghost predicate Valid()
      reads this
    {
      IsRun(START, trace, s)
    }

    constructor ()
      ensures Valid() && s == State({}, map[], {}, false, [], map[]) && trace == []
    {
      s, trace := START, [];
    }

    method Take(e: Event)
      requires Valid() && Proper(s, e)
      modifies this
      ensures Valid() && s == Do(old(s), e) && trace == old(trace) + [e]
    {
      RunOneMore(START, trace, s, e);
      s, trace := Do(s, e), trace + [e];
    }

    /** What the others get to do while `me` is between two steps: of the events offered, those possible. */
    method Meanwhile(me: Role, es: seq<Event>)
      requires Valid()
      modifies this
      ensures Valid() && Mine(me, trace) == old(Mine(me, trace))
      ensures me.Loop? ==> s.clients == old(s.clients) && s.todo == old(s.todo)
      ensures me.WritePump? ==>
        Waited(old(Peer(s, me.id)), Peer(s, me.id))
    {
      for i := 0 to |es|
        invariant Valid() && Mine(me, trace) == old(Mine(me, trace))
        invariant me.Loop? ==> s.clients == old(s.clients) && s.todo == old(s.todo)
        invariant me.WritePump? ==>
          Waited(old(Peer(s, me.id)), Peer(s, me.id))
      {
        if !IsMine(me, es[i]) && Proper(s, es[i]) {
          MineOneMore(me, trace, es[i]);
          if me.WritePump? {
            OthersOnlyAppend(s, me.id, es[i]);
          }
          Take(es[i]);
        }
      }
    }

    method StartBroadcast(m: Message)
      requires Valid() && s.todo == {}
      modifies this
      ensures Valid() && s.todo == old(s.clients)
      ensures Mine(Loop, trace) == old(Mine(Loop, trace)) + [Event.Broadcast(m)]
    {
      ReachableIsSafe(s);
      MineOneMore(Loop, trace, Event.Broadcast(m));
      Take(Event.Broadcast(m));
    }

    method OfferTo(id: Id)
      requires Valid() && id in s.todo
      modifies this
      ensures Valid() && s.todo == old(s.todo) - {id}
      ensures Mine(Loop, trace) == old(Mine(Loop, trace)) + [Offer(id)]
    {
      ReachableIsSafe(s);
      OfferedFits(s, id);
      MineOneMore(Loop, trace, Offer(id));
      Take(Offer(id));
    }

    /** The broadcast branch of `Run`: each client of the map is offered the message once, in some order. */
    method Broadcast(m: Message, others: nat -> seq<Event>) returns (ghost order: seq<Id>)
      requires Valid() && s.todo == {}
      modifies this
      ensures Valid() && s.todo == {}
      ensures NoDup(order) && forall id :: id in order <==> id in old(s.clients)
      ensures Mine(Loop, trace) == old(Mine(Loop, trace)) + [Event.Broadcast(m)] + Offers(order)
    {
      hide Do, Mine;
      order := [];
      StartBroadcast(m);
      ghost var before := Mine(Loop, trace);
      var n := 0;
      while s.todo != {}
        invariant Valid() && NoDup(order)
        invariant forall id :: id in old(s.clients) <==> id in order || id in s.todo
        invariant forall id :: id in order ==> id !in s.todo
        invariant Mine(Loop, trace) == before + Offers(order)
        decreases |s.todo|
      {
        Meanwhile(Loop, others(n));
        var id :| id in s.todo;
        OfferTo(id);
        OffersOneMore(order, id);
        order := order + [id];
        n := n + 1;
      }
    }

    method ReceiveFirst(id: Id) returns (done: bool)
      requires Valid() && Peer(s, id).pump.Idle? && CanReceive(Peer(s, id))
      modifies this
      ensures Valid()
      ensures done ==> Peer(s, id).pump.Finished? && old(Peer(s, id)).queue == [] && !old(Peer(s, id)).open
      ensures !done ==>
        var c, c' := old(Peer(s, id)), Peer(s, id);
        && c.queue != [] && c'.pump == Opened([c.queue[0]]) && c'.queue == c.queue[1..]
        && c'.got == c.got + [c.queue[0]] && c'.sent == c.sent
    {
      ReachableIsSafe(s);
      Take(First(id));
      done := Peer(s, id).pump.Finished?;
    }

    method ReceiveNext(id: Id)
      requires Valid() && Peer(s, id).pump.Draining? && Peer(s, id).pump.left > 0
      modifies this
      ensures Valid()
      ensures Received(old(Peer(s, id)), Peer(s, id))
    {
      InnerReceiveFindsAMessage(s, id);
      Take(More(id));
    }

    method Count(id: Id)
      requires Valid() && Peer(s, id).pump.Opened?
      modifies this
      ensures Valid()
      ensures var c, c' := old(Peer(s, id)), Peer(s, id);
        c' == c.(pump := Draining(c.pump.frame, |c.queue|))
    {
      ReachableIsSafe(s);
      Take(CountQueued(id));
    }

    method Send(id: Id)
      requires Valid() && Peer(s, id).pump.Draining? && Peer(s, id).pump.left == 0
      modifies this
      ensures Valid()
      ensures var c, c' := old(Peer(s, id)), Peer(s, id);
        c' == c.(sent := c.sent + [c.pump.frame], pump := Idle)
    {
      ReachableIsSafe(s);
      Take(Flush(id));
    }

    method Stop(id: Id)
      requires Valid() && !Peer(s, id).pump.Finished?
      modifies this
      ensures Valid() && Peer(s, id).pump.Finished?
    {
      ReachableIsSafe(s);
      Take(Die(id));
    }

    /** The receives inside a frame: as many as were queued when it was looked at. */
    method Drain(id: Id, others: nat -> seq<Event>) returns (ghost read: seq<Message>)
      requires Valid() && Peer(s, id).pump.Draining?
      modifies this
      ensures Valid() && |read| == old(Peer(s, id)).pump.left && HasRead(old(Peer(s, id)), Peer(s, id), read)
    {
      var n := Peer(s, id).pump.left;
      ghost var c := Peer(s, id);
      read := [];
      for i := 0 to n
        invariant Valid() && |read| == i && HasRead(c, Peer(s, id), read)
      {
        ghost var c1 := Peer(s, id);
        Meanwhile(WritePump(id), others(i + 1));
        ghost var c2 := Peer(s, id);
        ReceiveNext(id);
        ReadsOneMore(c, read, c1, c2, Peer(s, id));
        read := read + [c2.queue[0]];
      }
    }

    /** One pass of `WritePump` over the channel: a frame of everything queued when it looked, or the end.
        `failing` says whether the connection fails when the frame is opened or when it is closed. */
    method WriteFrame(id: Id, failing: (bool, bool), others: nat -> seq<Event>)
      returns (done: bool, ghost frame: seq<Message>)
      requires Valid() && Peer(s, id).pump.Idle? && CanReceive(Peer(s, id))
      modifies this
      ensures Valid()
      ensures done <==> Peer(s, id).pump.Finished?
      ensures done ==> failing.0 || failing.1 || (old(Peer(s, id)).queue == [] && !old(Peer(s, id)).open)
      ensures !done ==>
        var c, c' := old(Peer(s, id)), Peer(s, id);
        && c'.pump.Idle? && c'.sent == c.sent + [frame] && c'.got == c.got + frame
        && frame != [] && c.queue <= frame
    {
      ghost var c := Peer(s, id);
      frame := [];
      done := ReceiveFirst(id);
      if done {
        return;
      }
      ghost var c1 := Peer(s, id);
      Meanwhile(WritePump(id), others(0));
      if failing.0 {
        Stop(id);
        return true, [];
      }
      Count(id);
      ghost var c2 := Peer(s, id);
      var n := Peer(s, id).pump.left;
      ghost var read := Drain(id, others);
      ghost var c3 := Peer(s, id);
      Meanwhile(WritePump(id), others(n + 1));
      if failing.1 {
        Stop(id);
        return true, [];
      }
      frame := Peer(s, id).pump.frame;
      FrameHolds(c, c1, c2, read, c3);
      Send(id);
    }
  }
}
