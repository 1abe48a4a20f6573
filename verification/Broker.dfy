/** The event broker of the server-sent events: one loop that hands messages to the channels of the
    users and drops what a full channel cannot take, interleaved with the readers of the channels. */
module Broker {
  import opened Prelude

  type Chan = nat
  type UserId = int
  type Text = string

  const CAPACITY := 10

  /** A channel; `got` is what its reader took, `drops` the queue length met by every dropped message. */
  datatype Channel = Channel(queue: seq<Text>, open: bool, got: seq<Text>, drops: seq<nat>)

  const FRESH := Channel([], true, [], [])

  /** `todo` lists the channels the loop has still to visit, to offer them the last message or to close
      them.  The rest is history: all messages, and for each channel its user and the messages before
      it came and before it left. */
  datatype State = State(
    users: map<UserId, seq<Chan>>,
    chans: map<Chan, Channel>,
    todo: seq<Chan>,
    stopping: bool,
    panicked: bool,
    log: seq<(UserId, Text)>,
    owner: map<Chan, UserId>,
    joined: map<Chan, nat>,
    left: map<Chan, nat>)

  const START := State(map[], map[], [], false, false, [], map[], map[], map[])

  datatype Event =
    | Register(user: UserId, ch: Chan)
    | Unregister(user: UserId, ch: Chan)
    | Message(user: UserId, event: string, data: string, order: seq<UserId>)
    | Offer
    | Shutdown(order: seq<UserId>)
    | CloseNext
    | Receive(ch: Chan)

  function ChannelOf(s: State, ch: Chan): Channel {
    if ch in s.chans then s.chans[ch] else FRESH
  }

  function ListOf(users: map<UserId, seq<Chan>>, u: UserId): seq<Chan> {
    if u in users then users[u] else []
  }

  /** The channels of the users in the given order. */
  function Listing(users: map<UserId, seq<Chan>>, order: seq<UserId>): seq<Chan> {
    if order == [] then [] else ListOf(users, order[0]) + Listing(users, order[1..])
  }

  predicate IsOrder(order: seq<UserId>, users: map<UserId, seq<Chan>>) {
    NoDup(order) && (forall u <- order :: u in users) && forall u <- users :: u in order
  }

  function RemoveFirst(xs: seq<Chan>, x: Chan): seq<Chan> {
    if xs == [] then [] else if xs[0] == x then xs[1..] else [xs[0]] + RemoveFirst(xs[1..], x)
  }

  function WithoutChannel(users: map<UserId, seq<Chan>>, u: UserId, ch: Chan): map<UserId, seq<Chan>> {
    var rest := RemoveFirst(ListOf(users, u), ch);
    if rest == [] then users - {u} else users[u := rest]
  }

  function Render(event: string, data: string): Text {
    event + "\ndata: " + data + "\n\n"
  }

  predicate Enabled(s: State, e: Event) {
    && !s.panicked
    && match e
       case Register(_, _) => s.todo == [] && !s.stopping
       case Unregister(_, _) => s.todo == [] && !s.stopping
       case Message(_, _, _, order) => s.todo == [] && !s.stopping && IsOrder(order, s.users)
       case Offer => s.todo != [] && !s.stopping && s.log != []
       case Shutdown(order) => s.todo == [] && !s.stopping && IsOrder(order, s.users)
       case CloseNext => s.todo != [] && s.stopping
       case Receive(ch) => ChannelOf(s, ch).queue != []
  }

  /** A send that does not wait. */
  function Sent(c: Channel, m: Text): Channel {
    if |c.queue| < CAPACITY then c.(queue := c.queue + [m]) else c.(drops := c.drops + [|c.queue|])
  }

  function Taken(c: Channel): Channel {
    if c.queue == [] then c else c.(queue := c.queue[1..], got := c.got + [c.queue[0]])
  }

  /** Visiting the next channel; sending on a closed channel and closing it again both panic. */
  function Visited(s: State, c': Channel): State
    requires s.todo != []
  {
    var ch, rest := s.todo[0], s.(todo := s.todo[1..]);
    if ChannelOf(s, ch).open then rest.(chans := s.chans[ch := c']) else rest.(panicked := true)
  }

  function Do(s: State, e: Event): State
    requires Enabled(s, e)
  {
    match e
    case Register(u, ch) =>
      s.(users := s.users[u := ListOf(s.users, u) + [ch]],
         owner := s.owner[ch := u], joined := s.joined[ch := |s.log|])
    case Unregister(u, ch) =>
      s.(users := WithoutChannel(s.users, u, ch),
         left := if ch in ListOf(s.users, u) then s.left[ch := |s.log|] else s.left)
    case Message(u, event, data, order) =>
      s.(todo := if u == 0 then Listing(s.users, order) else ListOf(s.users, u),
         log := s.log + [(u, Render(event, data))])
    case Offer => Visited(s, Sent(ChannelOf(s, s.todo[0]), s.log[|s.log| - 1].1))
    case Shutdown(order) => s.(todo := Listing(s.users, order), users := map[], stopping := true)
    case CloseNext => Visited(s, ChannelOf(s, s.todo[0]).(open := false))
    case Receive(ch) => s.(chans := s.chans[ch := Taken(ChannelOf(s, ch))])
  }

  /** A step of a run in which every channel registers at most once. */
  predicate Proper(s: State, e: Event) {
    Enabled(s, e) && (e.Register? ==> e.ch !in s.joined)
  }

  ghost predicate IsRun(s: State, es: seq<Event>, s': State)
    decreases |es|
  {
    if es == [] then s' == s else Proper(s, es[0]) && IsRun(Do(s, es[0]), es[1..], s')
  }

  ghost predicate Reachable(s: State) {
    exists es :: IsRun(START, es, s)
  }

  // -------- What was addressed to a channel

  /** The messages for user u: its own, and those for everybody. */
  function For(u: UserId, log: seq<(UserId, Text)>): seq<Text> {
    if log == [] then [] else
      var last := log[|log| - 1];
      For(u, log[..|log| - 1]) + if last.0 == 0 || last.0 == u then [last.1] else []
  }

  predicate Known(s: State, ch: Chan) {
    ch in s.joined && ch in s.owner && s.joined[ch] <= |s.log| && (ch in s.left ==> s.joined[ch] <= s.left[ch] <= |s.log|)
  }

  /** The messages addressed to a channel while it was registered. */
  function Addressed(s: State, ch: Chan): seq<Text> {
    if !Known(s, ch) then []
    else For(s.owner[ch], s.log[s.joined[ch]..if ch in s.left then s.left[ch] else |s.log|])
  }

  /** a is b with some elements left out. */
  ghost predicate Thinned<T(!new)>(a: seq<T>, b: seq<T>) {
    if b == [] then a == []
    else
      || Thinned(a, b[..|b| - 1])
      || (a != [] && a[|a| - 1] == b[|b| - 1] && Thinned(a[..|a| - 1], b[..|b| - 1]))
  }

  lemma ThinnedMore<T(!new)>(a: seq<T>, b: seq<T>, x: T)
    requires Thinned(a, b)
    ensures Thinned(a, b + [x]) && Thinned(a + [x], b + [x])
  {
    assert (b + [x])[..|b|] == b && (a + [x])[..|a|] == a;
  }

  // -------- What holds in every reachable state

  predicate Holding(users: map<UserId, seq<Chan>>, owner: map<Chan, UserId>, ch: Chan) {
    ch in owner && ch in ListOf(users, owner[ch])
  }

  /** Users have channels, each channel stands once, in the list of its own user. */
  predicate Tidy(users: map<UserId, seq<Chan>>, owner: map<Chan, UserId>) {
    forall u <- users :: users[u] != [] && NoDup(users[u]) && forall ch <- users[u] :: ch in owner && owner[ch] == u
  }

  predicate Windows(s: State) {
    && s.owner.Keys == s.joined.Keys
    && (forall ch <- s.joined :: Known(s, ch))
    && (forall ch <- s.left :: ch in s.joined)
  }

  /** Which channels are where. */
  predicate Places(stopping: bool, holding: bool, joined: bool, left: bool, waits: bool, open: bool) {
    && (!stopping ==> (holding <==> joined && !left))
    && (waits ==> joined && !left)
    && (open <==> !stopping || !joined || left || waits)
  }

  predicate PlacesOf(s: State, ch: Chan) {
    Places(s.stopping, Holding(s.users, s.owner, ch), ch in s.joined, ch in s.left, ch in s.todo, ChannelOf(s, ch).open)
  }

  predicate Flow(c: Channel) {
    |c.queue| <= CAPACITY && forall n <- c.drops :: n == CAPACITY
  }

  /** What came out of and lies in a channel is what it was offered, thinned by its drops. */
  ghost predicate Fits(c: Channel, offered: seq<Text>) {
    Thinned(c.got + c.queue, offered) && |c.got| + |c.queue| + |c.drops| == |offered|
  }

  /** A channel that waits for its turn has been offered all that was addressed to it but the last. */
  ghost predicate Stream(c: Channel, due: seq<Text>, waits: bool, log: seq<(UserId, Text)>) {
    && Flow(c)
    && if waits then log != [] && due != [] && due[|due| - 1] == log[|log| - 1].1 && Fits(c, due[..|due| - 1])
       else Fits(c, due)
  }

  ghost predicate StreamOf(s: State, ch: Chan) {
    Stream(ChannelOf(s, ch), Addressed(s, ch), ch in s.todo && !s.stopping, s.log)
  }

  ghost predicate InvOf(s: State, ch: Chan) {
    PlacesOf(s, ch) && StreamOf(s, ch)
  }

  predicate Shape(s: State) {
    Tidy(s.users, s.owner) && Windows(s) && NoDup(s.todo)
  }

  ghost predicate Inv(s: State) {
    && !s.panicked && Shape(s)
    && forall ch: Chan :: InvOf(s, ch)
  }

  lemma {:induction false} RemovedFirst(xs: seq<Chan>, x: Chan)
    requires NoDup(xs)
    ensures NoDup(RemoveFirst(xs, x)) && forall y :: y in RemoveFirst(xs, x) <==> y in xs && y != x
  {
    if xs != [] {
      var y, rest := xs[0], xs[1..];
      assert xs == [y] + rest;
      NoDupCons(y, rest);
      if y != x {
        RemovedFirst(rest, x);
        NoDupCons(y, RemoveFirst(rest, x));
      }
    }
  }

  lemma {:induction false} ListingIsTidy(users: map<UserId, seq<Chan>>, owner: map<Chan, UserId>, order: seq<UserId>)
    requires Tidy(users, owner) && NoDup(order) && forall u <- order :: u in users
    ensures NoDup(Listing(users, order))
    ensures forall ch :: ch in Listing(users, order) <==> Holding(users, owner, ch) && owner[ch] in order
  {
    if order != [] {
      var u, rest := order[0], order[1..];
      assert order == [u] + rest;
      NoDupCons(u, rest);
      ListingIsTidy(users, owner, rest);
      NoDupConcat(users[u], Listing(users, rest));
    }
  }

  lemma TargetsOf(s: State, u: UserId, order: seq<UserId>)
    requires Inv(s) && IsOrder(order, s.users)
    ensures var targets := if u == 0 then Listing(s.users, order) else ListOf(s.users, u);
      && NoDup(targets)
      && forall ch :: ch in targets <==> Holding(s.users, s.owner, ch) && (u == 0 || s.owner[ch] == u)
  {
    ListingIsTidy(s.users, s.owner, order);
  }

  lemma AddressedOneMore(s: State, s': State, ch: Chan, x: (UserId, Text))
    requires Known(s, ch) && s'.log == s.log + [x]
    requires s'.owner == s.owner && s'.joined == s.joined && s'.left == s.left
    ensures Addressed(s', ch)
      == Addressed(s, ch) + if ch !in s.left && (x.0 == 0 || x.0 == s.owner[ch]) then [x.1] else []
  {
    var j := s.joined[ch];
    if ch in s.left {
      assert s'.log[j..s.left[ch]] == s.log[j..s.left[ch]];
    } else {
      assert s.log[j..|s.log|] == s.log[j..];
      assert s'.log[j..|s'.log|] == s.log[j..] + [x];
      assert (s.log[j..] + [x])[..|s.log[j..]|] == s.log[j..];
    }
  }

  lemma StreamTurnsToWaiting(c: Channel, due: seq<Text>, log: seq<(UserId, Text)>, x: (UserId, Text))
    requires Stream(c, due, false, log)
    ensures Stream(c, due + [x.1], true, log + [x]) && Stream(c, due, false, log + [x])
  {
    assert (due + [x.1])[..|due|] == due;
  }

  lemma MessagePlaces(s: State, e: Event)
    requires Inv(s) && Enabled(s, e) && e.Message?
    ensures forall ch: Chan ::
      && PlacesOf(Do(s, e), ch)
      && (ch in Do(s, e).todo <==> ch in s.joined && ch !in s.left && (e.user == 0 || s.owner[ch] == e.user))
  {
    TargetsOf(s, e.user, e.order);
    forall ch: Chan
      ensures PlacesOf(Do(s, e), ch)
      ensures ch in Do(s, e).todo <==> ch in s.joined && ch !in s.left && (e.user == 0 || s.owner[ch] == e.user)
    {
      assert InvOf(s, ch);
    }
  }

  lemma MessageKeeps(s: State, e: Event)
    requires Inv(s) && Enabled(s, e) && e.Message?
    ensures forall ch: Chan :: InvOf(Do(s, e), ch)
  {
    MessagePlaces(s, e);
    forall ch: Chan
      ensures InvOf(Do(s, e), ch)
    {
      var s', x, due := Do(s, e), (e.user, Render(e.event, e.data)), Addressed(s, ch);
      assert InvOf(s, ch);
      assert Stream(ChannelOf(s', ch), due, false, s.log);
      StreamTurnsToWaiting(ChannelOf(s', ch), due, s.log, x);
      if ch in s.joined {
        assert Known(s, ch);
        AddressedOneMore(s, s', ch, x);
        assert due + [] == due;
      }
    }
  }

  lemma RegisterKeeps(s: State, e: Event)
    requires Inv(s) && Proper(s, e) && e.Register?
    ensures forall ch: Chan :: InvOf(Do(s, e), ch)
  {
    forall ch: Chan
      ensures InvOf(Do(s, e), ch)
    {
      assert InvOf(s, ch) && InvOf(s, e.ch);
      if ch == e.ch {
        assert s.log[|s.log|..|s.log|] == [];
      }
    }
  }

  lemma UnregisterKeeps(s: State, e: Event)
    requires Inv(s) && Enabled(s, e) && e.Unregister?
    ensures forall ch: Chan :: InvOf(Do(s, e), ch)
  {
    hide Stream;
    assert InvOf(s, e.ch);
    if e.user in s.users {
      RemovedFirst(s.users[e.user], e.ch);
    }
    forall ch: Chan
      ensures InvOf(Do(s, e), ch)
    {
      assert InvOf(s, ch);
      assert Addressed(Do(s, e), ch) == Addressed(s, ch);
    }
  }

  lemma OfferFits(c: Channel, due: seq<Text>, log: seq<(UserId, Text)>)
    requires Stream(c, due, true, log)
    ensures Stream(Sent(c, log[|log| - 1].1), due, false, log)
  {
    var before, m := due[..|due| - 1], log[|log| - 1].1;
    assert due == before + [m];
    ThinnedMore(c.got + c.queue, before, m);
    assert c.got + (c.queue + [m]) == (c.got + c.queue) + [m];
  }

  /** A visit concerns one channel, and only its turn. */
  lemma VisitIsLocal(s: State, c': Channel, ch: Chan)
    requires s.todo != [] && NoDup(s.todo) && ChannelOf(s, s.todo[0]).open
    ensures var s' := Visited(s, c');
      && ChannelOf(s', ch) == (if ch == s.todo[0] then c' else ChannelOf(s, ch))
      && (ch in s'.todo <==> ch in s.todo && ch != s.todo[0])
      && NoDup(s'.todo) && Addressed(s', ch) == Addressed(s, ch) && !(s'.panicked && !s.panicked)
  {
    assert s.todo == [s.todo[0]] + s.todo[1..];
    NoDupCons(s.todo[0], s.todo[1..]);
  }

  lemma OfferKeeps(s: State)
    requires Inv(s) && Enabled(s, Offer)
    ensures (forall ch: Chan :: InvOf(Do(s, Offer), ch)) && !Do(s, Offer).panicked && NoDup(Do(s, Offer).todo)
  {
    hide Stream, Windows;
    var to := s.todo[0];
    assert InvOf(s, to);
    forall ch: Chan
      ensures InvOf(Do(s, Offer), ch)
    {
      assert InvOf(s, ch) && InvOf(s, to);
      VisitIsLocal(s, Sent(ChannelOf(s, to), s.log[|s.log| - 1].1), ch);
      OfferFits(ChannelOf(s, to), Addressed(s, to), s.log);
    }
  }

  lemma CloseKeeps(s: State)
    requires Inv(s) && Enabled(s, CloseNext)
    ensures (forall ch: Chan :: InvOf(Do(s, CloseNext), ch)) && !Do(s, CloseNext).panicked && NoDup(Do(s, CloseNext).todo)
  {
    var to := s.todo[0];
    assert InvOf(s, to);
    forall ch: Chan
      ensures InvOf(Do(s, CloseNext), ch)
    {
      assert InvOf(s, ch) && InvOf(s, to);
      VisitIsLocal(s, ChannelOf(s, to).(open := false), ch);
    }
  }

  lemma TakenFits(c: Channel, due: seq<Text>, waits: bool, log: seq<(UserId, Text)>)
    requires Stream(c, due, waits, log) && c.queue != []
    ensures Stream(Taken(c), due, waits, log)
  {
    assert c.queue == [c.queue[0]] + c.queue[1..];
    assert c.got + c.queue == Taken(c).got + Taken(c).queue;
  }

  lemma ReceiveKeeps(s: State, e: Event)
    requires Inv(s) && Enabled(s, e) && e.Receive?
    ensures forall ch: Chan :: InvOf(Do(s, e), ch)
  {
    forall ch: Chan
      ensures InvOf(Do(s, e), ch)
    {
      assert InvOf(s, ch);
      assert Addressed(Do(s, e), ch) == Addressed(s, ch);
      if ch == e.ch {
        TakenFits(ChannelOf(s, ch), Addressed(s, ch), ch in s.todo && !s.stopping, s.log);
      }
    }
  }

  lemma ShutdownKeeps(s: State, e: Event)
    requires Inv(s) && Enabled(s, e) && e.Shutdown?
    ensures forall ch: Chan :: InvOf(Do(s, e), ch)
  {
    TargetsOf(s, 0, e.order);
    forall ch: Chan
      ensures InvOf(Do(s, e), ch)
    {
      assert InvOf(s, ch);
      assert Addressed(Do(s, e), ch) == Addressed(s, ch);
    }
  }

  lemma RegisterKeepsShape(s: State, e: Event)
    requires Inv(s) && Proper(s, e) && e.Register?
    ensures Shape(Do(s, e))
  {
    var list := ListOf(s.users, e.user);
    assert InvOf(s, e.ch) && e.ch !in list;
    NoDupConcat(list, [e.ch]);
  }

  lemma UnregisterKeepsShape(s: State, e: Event)
    requires Inv(s) && Proper(s, e) && e.Unregister?
    ensures Shape(Do(s, e))
  {
    assert InvOf(s, e.ch);
    if e.user in s.users {
      RemovedFirst(s.users[e.user], e.ch);
    }
  }

  lemma MessageKeepsShape(s: State, e: Event)
    requires Inv(s) && Proper(s, e) && (e.Message? || e.Shutdown?)
    ensures Shape(Do(s, e))
  {
    TargetsOf(s, if e.Message? then e.user else 0, e.order);
  }

  lemma VisitKeepsShape(s: State, e: Event)
    requires Inv(s) && Proper(s, e) && (e.Offer? || e.CloseNext? || e.Receive?)
    ensures Shape(Do(s, e))
  {
    if e.Offer? && Enabled(s, e) {
      OfferKeeps(s);
    } else if e.CloseNext? && Enabled(s, e) {
      CloseKeeps(s);
    }
  }

  lemma StepKeepsShape(s: State, e: Event)
    requires Inv(s) && Proper(s, e)
    ensures Shape(Do(s, e))
  {
    match e {
      case Register(_, _) => RegisterKeepsShape(s, e);
      case Unregister(_, _) => UnregisterKeepsShape(s, e);
      case Message(_, _, _, _) => MessageKeepsShape(s, e);
      case Shutdown(_) => MessageKeepsShape(s, e);
      case _ => VisitKeepsShape(s, e);
    }
  }

  lemma StepKeepsInvOf(s: State, e: Event)
    requires Inv(s) && Proper(s, e)
    ensures !Do(s, e).panicked && forall ch: Chan :: InvOf(Do(s, e), ch)
  {
    match e {
      case Register(_, _) => RegisterKeeps(s, e);
      case Unregister(_, _) => UnregisterKeeps(s, e);
      case Message(_, _, _, _) => MessageKeeps(s, e);
      case Offer => OfferKeeps(s);
      case Shutdown(_) => ShutdownKeeps(s, e);
      case CloseNext => CloseKeeps(s);
      case Receive(_) => ReceiveKeeps(s, e);
    }
  }

  lemma StepKeepsInv(s: State, e: Event)
    requires Inv(s) && Proper(s, e)
    ensures Inv(Do(s, e))
  {
    StepKeepsShape(s, e);
    StepKeepsInvOf(s, e);
  }

  lemma {:induction false} RunKeepsInv(s: State, es: seq<Event>, s': State)
    requires Inv(s) && IsRun(s, es, s')
    ensures Inv(s')
    decreases |es|
  {
    if es != [] {
      StepKeepsInv(s, es[0]);
      RunKeepsInv(Do(s, es[0]), es[1..], s');
    }
  }

  lemma StartIsSafe()
    ensures Inv(START)
  {
  }

  lemma ReachableIsSafe(s: State)
    requires Reachable(s)
    ensures Inv(s)
  {
    StartIsSafe();
    var es :| IsRun(START, es, s);
    RunKeepsInv(START, es, s);
  }

  // -------- The broker's promises, over every run in which each channel registers once

  /** No user is left with an empty list, and a channel stands in its own user's list exactly from its
      registration to its unregistration. */
  lemma ListsAreExact(s: State, ch: Chan)
    requires Reachable(s) && !s.stopping
    ensures forall u <- s.users :: s.users[u] != [] && NoDup(s.users[u])
    ensures s.owner.Keys == s.joined.Keys
    ensures ch in s.joined && ch !in s.left ==> s.owner[ch] in s.users
    ensures forall u <- s.users :: ch in s.users[u] <==> ch in s.joined && ch !in s.left && s.owner[ch] == u
  {
    ReachableIsSafe(s);
    assert InvOf(s, ch);
    forall u <- s.users
      ensures ch in s.users[u] <==> ch in s.joined && ch !in s.left && s.owner[ch] == u
    {
      assert ch in s.joined <==> ch in s.owner;
    }
  }

  /** When the loop has no visits left, what a client got and has queued is what was addressed to it while
      it was registered, in order, less as many messages as met its buffer full. */
  lemma DeliveredIsThinned(s: State, ch: Chan)
    requires Reachable(s) && (s.todo == [] || s.stopping)
    ensures var c, due := ChannelOf(s, ch), Addressed(s, ch);
      && Thinned(c.got + c.queue, due)
      && |c.got| + |c.queue| + |c.drops| == |due|
      && forall n <- c.drops :: n == 10
  {
    ReachableIsSafe(s);
    assert InvOf(s, ch);
  }

  lemma {:induction false} ThinnedByNothing<T(!new)>(a: seq<T>, b: seq<T>)
    requires Thinned(a, b)
    ensures |a| <= |b| && (|a| == |b| ==> a == b)
  {
    if b != [] {
      var front := b[..|b| - 1];
      assert b == front + [b[|b| - 1]];
      if Thinned(a, front) {
        ThinnedByNothing(a, front);
      } else {
        ThinnedByNothing(a[..|a| - 1], front);
        assert a == a[..|a| - 1] + [a[|a| - 1]];
      }
    }
  }

  /** A client whose buffer was never full when a message came misses nothing. */
  lemma RoomMeansEverything(s: State, ch: Chan)
    requires Reachable(s) && s.todo == []
    ensures ChannelOf(s, ch).got + ChannelOf(s, ch).queue == Addressed(s, ch) <==> ChannelOf(s, ch).drops == []
  {
    DeliveredIsThinned(s, ch);
    ThinnedByNothing(ChannelOf(s, ch).got + ChannelOf(s, ch).queue, Addressed(s, ch));
  }

  /** Nothing is ever sent on a closed channel or closed twice.  Only the shutdown closes: once it is
      through, exactly the channels still registered are closed; one that unregistered stays open. */
  lemma ClosedExactlyByShutdown(s: State, ch: Chan)
    requires Reachable(s)
    ensures !s.panicked
    ensures s.stopping && s.todo == [] ==> (!ChannelOf(s, ch).open <==> ch in s.joined && ch !in s.left)
    ensures !ChannelOf(s, ch).open ==> s.stopping
  {
    ReachableIsSafe(s);
    assert InvOf(s, ch);
  }

  /** After the shutdown the loop takes no step but closing what is left, so a run can close a channel once. */
  lemma OnlyClosingIsLeft(s: State, e: Event)
    requires Reachable(s) && s.stopping && Enabled(s, e)
    ensures (e.CloseNext? && ChannelOf(s, s.todo[0]).open) || e.Receive?
  {
    ReachableIsSafe(s);
    if s.todo != [] {
      assert InvOf(s, s.todo[0]);
    }
  }

  // -------- Registering a channel again

  /** The rest of a shutdown. */
  function ClosedDown(s: State): State
    requires s.stopping
    decreases |s.todo|
  {
    if s.todo == [] || s.panicked then s else ClosedDown(Do(s, CloseNext))
  }

  predicate AllOpen(s: State, chs: seq<Chan>) {
    forall ch <- chs :: ChannelOf(s, ch).open
  }

  lemma {:induction false} ClosedBeforeItsTurn(s: State, ch: Chan)
    requires s.stopping && !s.panicked && ch in s.todo && !ChannelOf(s, ch).open
    ensures ClosedDown(s).panicked
    decreases |s.todo|
  {
    if ChannelOf(s, s.todo[0]).open {
      assert s.todo == [s.todo[0]] + s.todo[1..];
      ClosedBeforeItsTurn(Do(s, CloseNext), ch);
    }
  }

  /** A shutdown over open channels panics exactly if one of them is listed twice. */
  lemma {:induction false} ShutdownPanicsIff(s: State)
    requires s.stopping && !s.panicked && AllOpen(s, s.todo)
    ensures ClosedDown(s).panicked <==> !NoDup(s.todo)
    decreases |s.todo|
  {
    if s.todo != [] {
      var to, rest, s' := s.todo[0], s.todo[1..], Do(s, CloseNext);
      assert s.todo == [to] + rest;
      NoDupCons(to, rest);
      if to in rest {
        ClosedBeforeItsTurn(s', to);
      } else {
        forall c <- rest
          ensures ChannelOf(s', c).open
        {
          assert c in s.todo && c != to;
        }
        ShutdownPanicsIff(s');
      }
    }
  }

  /** Lists one after the other have no repeats only if none of them has, and no two share a channel. */
  lemma {:induction false} ListingParts(users: map<UserId, seq<Chan>>, order: seq<UserId>, u: UserId, v: UserId, ch: Chan)
    requires NoDup(Listing(users, order)) && u in order && v in order
    requires ch in ListOf(users, u) && ch in ListOf(users, v)
    ensures NoDup(ListOf(users, u)) && u == v
  {
    var first, rest := ListOf(users, order[0]), Listing(users, order[1..]);
    assert Listing(users, order) == first + rest;
    NoDupParts(first, rest);
    assert order == [order[0]] + order[1..];
    if u != order[0] {
      ListedIn(users, order[1..], u, ch);
    }
    if v != order[0] {
      ListedIn(users, order[1..], v, ch);
    }
    if u != order[0] && v != order[0] {
      ListingParts(users, order[1..], u, v, ch);
    }
  }

  lemma {:induction false} ListedIn(users: map<UserId, seq<Chan>>, order: seq<UserId>, u: UserId, ch: Chan)
    requires u in order && ch in ListOf(users, u)
    ensures ch in Listing(users, order)
  {
    assert order == [order[0]] + order[1..];
    if u != order[0] {
      ListedIn(users, order[1..], u, ch);
    }
  }

  /** Registering once matters: after one more registration of a channel, and a shutdown run to its end, the
      loop has panicked exactly if the channel was registered and had not been unregistered. */
  lemma RegisteringAgainPanicsIff(s: State, u: UserId, ch: Chan, order: seq<UserId>)
    requires Reachable(s) && Enabled(s, Register(u, ch))
    requires IsOrder(order, Do(s, Register(u, ch)).users)
    ensures ClosedDown(Do(Do(s, Register(u, ch)), Shutdown(order))).panicked
      <==> ch in s.joined && ch !in s.left
  {
    var s1 := Do(s, Register(u, ch));
    var s2 := Do(s1, Shutdown(order));
    var v := if ch in s.owner then s.owner[ch] else u;
    ReachableIsSafe(s);
    assert InvOf(s, ch);
    assert u in order && ch in ListOf(s1.users, u);
    if Holding(s.users, s.owner, ch) {
      assert v in order && ch in ListOf(s1.users, v);
      if NoDup(s2.todo) {
        ListingParts(s1.users, order, u, v, ch);
        assert s1.users[u] == ListOf(s.users, u) + [ch];
        NoDupParts(ListOf(s.users, u), [ch]);
      }
    } else {
      NewListsAreTidy(s, u, ch);
      ListingIsTidy(s1.users, s1.owner, order);
    }
    forall x: Chan
      ensures ChannelOf(s2, x).open
    {
      assert InvOf(s, x);
    }
    ShutdownPanicsIff(s2);
  }

  lemma NewListsAreTidy(s: State, u: UserId, ch: Chan)
    requires Inv(s) && Enabled(s, Register(u, ch)) && !Holding(s.users, s.owner, ch)
    ensures var s1 := Do(s, Register(u, ch)); Tidy(s1.users, s1.owner)
  {
    var list := ListOf(s.users, u);
    assert ch !in list;
    NoDupConcat(list, [ch]);
  }

  // -------- The branches of the loop, with the readers of the channels in between

  function Handled(c: Channel): nat {
    |c.got| + |c.queue| + |c.drops|
  }

  predicate IsTarget(s: State, u: UserId, ch: Chan) {
    Holding(s.users, s.owner, ch) && (u == 0 || s.owner[ch] == u)
  }

  /** A whole message makes every channel it is for handle one more, and no other channel. */
  lemma MessageHandledOnce(s: State, s': State, x: (UserId, Text), ch: Chan)
    requires Reachable(s) && s.todo == [] && !s.stopping && Reachable(s') && s'.todo == []
    requires s' == s.(chans := s'.chans, log := s.log + [x])
    ensures Handled(ChannelOf(s', ch)) == Handled(ChannelOf(s, ch)) + if IsTarget(s, x.0, ch) then 1 else 0
  {
    DeliveredIsThinned(s, ch);
    DeliveredIsThinned(s', ch);
    ReachableIsSafe(s);
    assert InvOf(s, ch);
    if Known(s, ch) {
      AddressedOneMore(s, s', ch, x);
    }
  }

  lemma {:induction false} RunOneMore(s: State, es: seq<Event>, s1: State, e: Event)
    requires IsRun(s, es, s1) && Proper(s1, e)
    ensures IsRun(s, es + [e], Do(s1, e))
    decreases |es|
  {
    if es == [] {
      assert (es + [e])[1..] == [];
      assert IsRun(Do(s1, e), [], Do(s1, e));
    } else {
      RunOneMore(Do(s, es[0]), es[1..], s1, e);
      assert (es + [e])[1..] == es[1..] + [e];
    }
  }

  lemma ListingStep(users: map<UserId, seq<Chan>>, order: seq<UserId>, n: nat)
    requires n < |order|
    ensures Listing(users, order[n..]) == ListOf(users, order[n]) + Listing(users, order[n + 1..])
  {
    assert order[n..][1..] == order[n + 1..];
  }

  lemma {:induction false} RemoveAt(xs: seq<Chan>, x: Chan, n: nat)
    requires n <= |xs| && x !in xs[..n] && (n == |xs| || xs[n] == x)
    ensures RemoveFirst(xs, x) == if n == |xs| then xs else xs[..n] + xs[n + 1..]
  {
    if n > 0 {
      var rest := xs[1..];
      assert xs[0] == xs[..n][0];
      assert rest[..n - 1] == xs[..n][1..];
      RemoveAt(rest, x, n - 1);
      if n == |xs| {
        assert [xs[0]] + rest == xs;
      } else {
        assert rest[n..] == xs[n + 1..];
        assert [xs[0]] + (rest[..n - 1] + rest[n..]) == xs[..n] + xs[n + 1..];
      }
    }
  }

  lemma ShutdownCloses(s: State, s': State, ch: Chan)
    requires Reachable(s) && !s.stopping && Reachable(s') && s'.stopping && s'.todo == []
    requires s'.joined == s.joined && s'.left == s.left
    ensures !ChannelOf(s', ch).open <==> Holding(s.users, s.owner, ch)
  {
    ClosedExactlyByShutdown(s', ch);
    ReachableIsSafe(s);
    assert InvOf(s, ch);
  }

  lemma UnregisterIs(s: State, u: UserId, ch: Chan, users: map<UserId, seq<Chan>>)
    requires Enabled(s, Unregister(u, ch)) && Tidy(s.users, s.owner)
    requires var rest := RemoveFirst(ListOf(s.users, u), ch);
      && users.Keys == (if rest == [] then s.users.Keys - {u} else s.users.Keys + {u})
      && forall v <- users :: users[v] == if v == u then rest else s.users[v]
    ensures Do(s, Unregister(u, ch))
      == s.(users := users, left := if ch in ListOf(s.users, u) then s.left[ch := |s.log|] else s.left)
  {
    var all := WithoutChannel(s.users, u, ch);
    assert users.Keys == all.Keys;
    assert forall v <- users :: users[v] == all[v];
    assert users == all;
  }

  class Broker {
    var s: State

    ghost predicate Valid()
      reads this
    {
      Reachable(s)
    }

    constructor ()
      ensures Valid() && s == State(map[], map[], [], false, false, [], map[], map[], map[])
    {
      s := START;
      new;
      assert IsRun(START, [], START);
    }

    method Take(e: Event)
      requires Valid() && Proper(s, e)
      modifies this
      ensures Valid() && s == Do(old(s), e)
    {
      ghost var es :| IsRun(START, es, s);
      RunOneMore(START, es, s, e);
      s := Do(s, e);
    }

    /** The readers take what they can from their channels. */
    method Readers(readers: seq<Chan>)
      requires Valid()
      modifies this
      ensures Valid() && s == old(s).(chans := s.chans)
    {
      for i := 0 to |readers|
        invariant Valid() && s == old(s).(chans := s.chans)
      {
        ReachableIsSafe(s);
        if ChannelOf(s, readers[i]).queue != [] {
          Take(Receive(readers[i]));
        }
      }
    }

    method Unregister(u: UserId, ch: Chan)
      requires Valid() && Enabled(s, Event.Unregister(u, ch))
      modifies this
      ensures Valid() && s == Do(old(s), Event.Unregister(u, ch))
    {
      ReachableIsSafe(s);
      ghost var before := s;
      var clients := ListOf(s.users, u);
      var n := 0;
      while n < |clients| && clients[n] != ch
        invariant 0 <= n <= |clients| && ch !in clients[..n]
      {
        n := n + 1;
      }
      RemoveAt(clients, ch, n);
      var users := s.users;
      if n < |clients| {
        users := users[u := clients[..n] + clients[n + 1..]];
      }
      if ListOf(users, u) == [] {
        users := users - {u};
      }
      UnregisterIs(s, u, ch, users);
      s := s.(users := users, left := if n < |clients| then s.left[ch := |s.log|] else s.left);
      ghost var es :| IsRun(START, es, before);
      RunOneMore(START, es, before, Event.Unregister(u, ch));
    }

    method OfferTo(ch: Chan, readers: seq<Chan>)
      requires Valid() && !s.stopping && s.log != [] && s.todo != [] && s.todo[0] == ch
      modifies this
      ensures Valid() && s == old(s).(chans := s.chans, todo := old(s).todo[1..])
    {
      Readers(readers);
      ReachableIsSafe(s);
      OfferKeeps(s);
      Take(Offer);
    }

    method OfferToAll(clients: seq<Chan>, ghost after: seq<Chan>, readers: nat -> seq<Chan>)
      requires Valid() && !s.stopping && s.log != [] && s.todo == clients + after
      modifies this
      ensures Valid() && s == old(s).(chans := s.chans, todo := after)
    {
      for j := 0 to |clients|
        invariant Valid() && s == old(s).(chans := s.chans, todo := clients[j..] + after)
      {
        assert (clients[j..] + after)[0] == clients[j] && (clients[j..] + after)[1..] == clients[j + 1..] + after;
        OfferTo(clients[j], readers(j));
      }
      assert clients[|clients|..] + after == after;
    }

    /** A message goes to every channel of every user, or to those of one user: each handles it once. */
    method Message(u: UserId, event: string, data: string, readers: nat -> nat -> seq<Chan>)
      requires Valid() && s.todo == [] && !s.stopping
      modifies this
      ensures Valid() && s == old(s).(chans := s.chans, log := old(s.log) + [(u, event + "\ndata: " + data + "\n\n")])
      ensures forall ch: Chan ::
        Handled(ChannelOf(s, ch)) == Handled(ChannelOf(old(s), ch)) + if IsTarget(old(s), u, ch) then 1 else 0
    {
      ghost var before, x := s, (u, Render(event, data));
      ReachableIsSafe(s);
      var order := IterationOrder(s.users);
      Take(Event.Message(u, event, data, order));
      if u == 0 {
        assert order[0..] == order;
        for i := 0 to |order|
          invariant Valid()
          invariant s == before.(chans := s.chans, log := before.log + [x], todo := Listing(before.users, order[i..]))
        {
          ListingStep(before.users, order, i);
          OfferToAll(ListOf(s.users, order[i]), Listing(before.users, order[i + 1..]), readers(i));
        }
      } else {
        assert ListOf(s.users, u) + [] == ListOf(s.users, u);
        OfferToAll(ListOf(s.users, u), [], readers(0));
      }
      forall ch: Chan {
        MessageHandledOnce(before, s, x, ch);
      }
    }

    method CloseAll(clients: seq<Chan>, ghost after: seq<Chan>, readers: nat -> seq<Chan>)
      requires Valid() && s.stopping && s.todo == clients + after
      modifies this
      ensures Valid() && s == old(s).(chans := s.chans, todo := after)
    {
      for j := 0 to |clients|
        invariant Valid() && s == old(s).(chans := s.chans, todo := clients[j..] + after)
      {
        assert (clients[j..] + after)[0] == clients[j] && (clients[j..] + after)[1..] == clients[j + 1..] + after;
        Readers(readers(j));
        ReachableIsSafe(s);
        CloseKeeps(s);
        Take(CloseNext);
      }
      assert clients[|clients|..] + after == after;
    }

    /** The shutdown closes exactly the channels that are registered, each once, and forgets all users. */
    method Shutdown(readers: nat -> nat -> seq<Chan>)
      requires Valid() && s.todo == [] && !s.stopping
      modifies this
      ensures Valid() && s == old(s).(chans := s.chans, users := map[], stopping := true)
      ensures forall ch: Chan :: !ChannelOf(s, ch).open <==> Holding(old(s.users), old(s.owner), ch)
    {
      ghost var before := s;
      ReachableIsSafe(s);
      var order := IterationOrder(s.users);
      var users := s.users;
      Take(Event.Shutdown(order));
      assert order[0..] == order;
      for i := 0 to |order|
        invariant Valid()
        invariant s == before.(chans := s.chans, users := map[], stopping := true, todo := Listing(users, order[i..]))
      {
        ListingStep(users, order, i);
        CloseAll(ListOf(users, order[i]), Listing(users, order[i + 1..]), readers(i));
      }
      forall ch: Chan
        ensures !ChannelOf(s, ch).open <==> Holding(before.users, before.owner, ch)
      {
        ShutdownCloses(before, s, ch);
      }
    }
  }
}
