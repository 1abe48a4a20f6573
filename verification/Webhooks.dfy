/** The processing of payment webhooks: a table of processed events makes repeats harmless. */
module Webhooks {
  import opened Prelude

  /** A row of `asaas_payments`, as far as webhooks change it. */
  datatype Payment = Payment(status: string, date: Option<int>)

  datatype Subscription = Subscription(status: string, nextBilling: Option<int>, response: Option<string>)

  datatype Resource = Resource(id: string, status: string, due: int)

  /** A webhook body.  `due` is the parsed due date, the zero time for a text that is no date. */
  datatype Payload = Payload(event: string, payment: Option<Resource>, subscription: Option<Resource>)

  type EventKey = (string, string)

  datatype Billing = Billing(
    payments: map<string, Payment>,
    subscriptions: map<string, Subscription>,
    processed: set<EventKey>)

  /** One call of `ProcessWebhookEvent`: whether the lookup of the event answers, what reading the stored
      webhook gives (nothing when the read or the decoding fails), whether the update is applied, and how
      marking the event ends. */
  datatype Call = Call(key: EventKey, now: int, lookupOk: bool, body: Option<Payload>, updates: bool, mark: Outcome)

  // -------- What one event does

  datatype Update =
    | Nothing
    | SetPayment(id: string, status: string, date: Option<int>)
    | SetSubscription(id: string, status: string, nextBilling: Option<int>)

  function PaymentUpdate(p: Option<Resource>, status: string, date: Option<int>): Update {
    if p.None? then Nothing else SetPayment(p.value.id, status, date)
  }

  function SubscriptionUpdate(p: Option<Resource>, status: string, nextBilling: Option<int>): Update {
    if p.None? then Nothing else SetSubscription(p.value.id, status, nextBilling)
  }

  function UpdateFor(p: Payload, now: int): Update {
    match p.event
    case "PAYMENT_RECEIVED" => PaymentUpdate(p.payment, "RECEIVED", Some(now))
    case "PAYMENT_CONFIRMED" => PaymentUpdate(p.payment, "CONFIRMED", Some(now))
    case "PAYMENT_OVERDUE" => PaymentUpdate(p.payment, "OVERDUE", None)
    case "PAYMENT_REFUNDED" => PaymentUpdate(p.payment, "REFUNDED", None)
    case "PAYMENT_CANCELED" => PaymentUpdate(p.payment, "CANCELED", None)
    case "SUBSCRIPTION_UPDATED" =>
      if p.subscription.None? then Nothing
      else SubscriptionUpdate(p.subscription, p.subscription.value.status, Some(p.subscription.value.due))
    case "SUBSCRIPTION_CANCELED" => SubscriptionUpdate(p.subscription, "CANCELED", None)
    case "SUBSCRIPTION_DELETED" => SubscriptionUpdate(p.subscription, "DELETED", None)
    case _ => Nothing
  }

  /** UPDATE ... WHERE id = ?: a row that is not there is not made. */
  function Apply(b: Billing, u: Update): Billing {
    match u
    case Nothing => b
    case SetPayment(id, status, date) =>
      if id in b.payments then b.(payments := b.payments[id := Payment(status, date)]) else b
    case SetSubscription(id, status, nextBilling) =>
      if id in b.subscriptions then
        b.(subscriptions := b.subscriptions[id := Subscription(status, nextBilling, None)])
      else b
  }

  /** The tables after a call, and whether it returned nil. */
  function Process(b: Billing, c: Call): (Billing, bool) {
    if c.lookupOk && c.key in b.processed then (b, true)
    else if c.body.None? then (b, false)
    else
      var b1 := if c.updates then Apply(b, UpdateFor(c.body.value, c.now)) else b;
      (if c.mark.Err? then b1 else b1.(processed := b1.processed + {c.key}), c.mark.Ok?)
  }

  class WebhookHandler {
    var payments: map<string, Payment>
    var subscriptions: map<string, Subscription>
    var processed: set<EventKey>

    ghost function Model(): Billing
      reads this
    {
      Billing(payments, subscriptions, processed)
    }

    constructor (payments: map<string, Payment>, subscriptions: map<string, Subscription>)
      ensures Model() == Billing(payments, subscriptions, {})
    {
      this.payments, this.subscriptions, processed := payments, subscriptions, {};
    }

    method UpdatePayment(p: Option<Resource>, status: string, date: Option<int>, updates: bool)
      modifies this
      ensures Model() == if updates then Apply(old(Model()), PaymentUpdate(p, status, date)) else old(Model())
    {
      if p.None? {
        return;
      }
      if updates && p.value.id in payments {
        payments := payments[p.value.id := Payment(status, date)];
      }
    }

    method UpdateSubscription(p: Option<Resource>, status: string, nextBilling: Option<int>, updates: bool)
      modifies this
      ensures Model() == if updates then Apply(old(Model()), SubscriptionUpdate(p, status, nextBilling)) else old(Model())
    {
      if p.None? {
        return;
      }
      if updates && p.value.id in subscriptions {
        subscriptions := subscriptions[p.value.id := Subscription(status, nextBilling, None)];
      }
    }

    method ProcessWebhookEvent(c: Call) returns (isNil: bool)
      modifies this
      ensures (Model(), isNil) == Process(old(Model()), c)
    {
      if c.lookupOk && c.key in processed {
        return true;
      }
      if c.body.None? {
        return false;
      }
      var p := c.body.value;
      match p.event {
        case "PAYMENT_RECEIVED" => UpdatePayment(p.payment, "RECEIVED", Some(c.now), c.updates);
        case "PAYMENT_CONFIRMED" => UpdatePayment(p.payment, "CONFIRMED", Some(c.now), c.updates);
        case "PAYMENT_OVERDUE" => UpdatePayment(p.payment, "OVERDUE", None, c.updates);
        case "PAYMENT_REFUNDED" => UpdatePayment(p.payment, "REFUNDED", None, c.updates);
        case "PAYMENT_CANCELED" => UpdatePayment(p.payment, "CANCELED", None, c.updates);
        case "SUBSCRIPTION_UPDATED" =>
          if p.subscription.Some? {
            UpdateSubscription(p.subscription, p.subscription.value.status, Some(p.subscription.value.due), c.updates);
          }
        case "SUBSCRIPTION_CANCELED" => UpdateSubscription(p.subscription, "CANCELED", None, c.updates);
        case "SUBSCRIPTION_DELETED" => UpdateSubscription(p.subscription, "DELETED", None, c.updates);
        case _ =>
      }
      if !c.mark.Err? {
        processed := processed + {c.key};
      }
      isNil := c.mark.Ok?;
    }
  }

  // -------- Whole sequences of calls

  function ProcessAll(b: Billing, calls: seq<Call>): Billing
    decreases |calls|
  {
    if calls == [] then b else ProcessAll(Process(b, calls[0]).0, calls[1..])
  }

  /** The calls without those whose event an earlier call, or one before them, finished with nil. */
  function WithoutRepeats(b: Billing, calls: seq<Call>, finished: set<EventKey>): seq<Call>
    decreases |calls|
  {
    if calls == [] then [] else
      var c, after := calls[0], Process(b, calls[0]);
      var rest := WithoutRepeats(after.0, calls[1..], if after.1 then finished + {c.key} else finished);
      if c.key in finished then rest else [c] + rest
  }

  /** A call that can do no harm to a finished event: its lookup is answered, its body cannot be read, its
      update fails, or its event updates nothing. */
  predicate IsHarmless(c: Call) {
    c.lookupOk || c.body.None? || !c.updates || UpdateFor(c.body.value, c.now).Nothing?
  }

  /** Every call for an event already finished is of that kind. */
  predicate RepeatsAreTame(b: Billing, calls: seq<Call>, finished: set<EventKey>)
    decreases |calls|
  {
    calls != [] ==>
      var c, after := calls[0], Process(b, calls[0]);
      && (c.key in finished ==> IsHarmless(c))
      && RepeatsAreTame(after.0, calls[1..], if after.1 then finished + {c.key} else finished)
  }

  lemma HarmlessChangesNothing(b: Billing, c: Call)
    requires c.key in b.processed && IsHarmless(c)
    ensures Process(b, c).0 == b
  {
    assert b.processed + {c.key} == b.processed;
  }

  lemma {:induction false} RepeatsAddNothing(b: Billing, calls: seq<Call>, finished: set<EventKey>)
    requires finished <= b.processed && RepeatsAreTame(b, calls, finished)
    ensures ProcessAll(b, calls) == ProcessAll(b, WithoutRepeats(b, calls, finished))
    decreases |calls|
  {
    if calls != [] {
      var c, after := calls[0], Process(b, calls[0]);
      var finished' := if after.1 then finished + {c.key} else finished;
      RepeatsAddNothing(after.0, calls[1..], finished');
      var rest := WithoutRepeats(after.0, calls[1..], finished');
      if c.key in finished {
        HarmlessChangesNothing(b, c);
        assert finished' == finished;
      } else {
        assert ([c] + rest)[1..] == rest;
      }
    }
  }

  /** Calls one after the other, in any number, leave all tables as the calls without the repeats of
      finished events do, if each of those repeats is harmless; no weaker condition on a single repeat will
      do (RepeatIsHarmlessIff). */
  lemma RepeatsAreHarmless(b: Billing, calls: seq<Call>)
    requires RepeatsAreTame(b, calls, {})
    ensures ProcessAll(b, calls) == ProcessAll(b, WithoutRepeats(b, calls, {}))
  {
    RepeatsAddNothing(b, calls, {});
  }

  /** What is left is free of repeats: leaving them out again leaves it as it is. */
  lemma {:induction false} NoRepeatsAreLeft(b: Billing, calls: seq<Call>, finished: set<EventKey>)
    requires finished <= b.processed && RepeatsAreTame(b, calls, finished)
    ensures var left := WithoutRepeats(b, calls, finished); WithoutRepeats(b, left, finished) == left
    decreases |calls|
  {
    if calls != [] {
      var c, after := calls[0], Process(b, calls[0]);
      var finished' := if after.1 then finished + {c.key} else finished;
      NoRepeatsAreLeft(after.0, calls[1..], finished');
      var rest := WithoutRepeats(after.0, calls[1..], finished');
      if c.key in finished {
        HarmlessChangesNothing(b, c);
        assert finished' == finished;
      } else {
        assert ([c] + rest)[1..] == rest;
      }
    }
  }

  /** A call for a finished event changes no payment and no subscription, whatever the tables hold, exactly
      if its lookup is answered, its body cannot be read, its update fails, or its event updates nothing. */
  lemma RepeatIsHarmlessIff(c: Call)
    ensures (forall b: Billing :: c.key in b.processed ==>
              Process(b, c).0.payments == b.payments && Process(b, c).0.subscriptions == b.subscriptions)
       <==> IsHarmless(c)
  {
    if !IsHarmless(c) {
      var u := UpdateFor(c.body.value, c.now);
      var other := u.status + "?";
      assert |other| != |u.status|;
      var b := Billing(map[u.id := Payment(other, None)], map[u.id := Subscription(other, None, None)], {c.key});
      if u.SetPayment? {
        assert Process(b, c).0.payments[u.id].status == u.status != b.payments[u.id].status;
      } else {
        assert Process(b, c).0.subscriptions[u.id].status == u.status != b.subscriptions[u.id].status;
      }
    }
  }

  function Answered(event: string, id: string, now: int, lookupOk: bool): Call {
    var key := ("asaas", "payment:" + id + ":" + event);
    Call(key, now, lookupOk, Some(Payload(event, Some(Resource(id, "", 0)), None)), true, Ok)
  }

  /** A repeat whose lookup fails is processed again: a refunded payment is received once more. */
  lemma UnansweredLookupRevivesAPayment(id: string)
    ensures var received := Answered("PAYMENT_RECEIVED", id, 1, true);
      var refunded := Answered("PAYMENT_REFUNDED", id, 2, true);
      var again := received.(now := 3, lookupOk := false);
      var b := Billing(map[id := Payment("PENDING", None)], map[], {});
      && ProcessAll(b, [received, refunded]).payments == map[id := Payment("REFUNDED", None)]
      && ProcessAll(b, [received, refunded, again]).payments == map[id := Payment("RECEIVED", Some(3))]
  {
    var received := Answered("PAYMENT_RECEIVED", id, 1, true);
    var refunded := Answered("PAYMENT_REFUNDED", id, 2, true);
    var again := received.(now := 3, lookupOk := false);
    var b := Billing(map[id := Payment("PENDING", None)], map[], {});
    var b1 := Process(b, received).0;
    var b2 := Process(b1, refunded).0;
    CancelPrefix("payment:" + id + ":", "PAYMENT_RECEIVED", "PAYMENT_REFUNDED");
    assert "PAYMENT_RECEIVED"[10] != "PAYMENT_REFUNDED"[10];
    assert b1 == Billing(map[id := Payment("RECEIVED", Some(1))], map[], {received.key});
    assert refunded.key != received.key;
    assert b2.payments == map[id := Payment("REFUNDED", None)];
    assert Process(b2, again).0.payments == map[id := Payment("RECEIVED", Some(3))];
    ProcessOne(b, received, [refunded]);
    ProcessOne(b1, refunded, []);
    ProcessOne(b, received, [refunded, again]);
    ProcessOne(b1, refunded, [again]);
    ProcessOne(b2, again, []);
    assert [received] + [refunded] == [received, refunded] && [refunded] + [again] == [refunded, again];
    assert [received] + [refunded, again] == [received, refunded, again];
    assert [refunded] + [] == [refunded] && [again] + [] == [again];
  }

  lemma ProcessOne(b: Billing, c: Call, rest: seq<Call>)
    ensures ProcessAll(b, [c] + rest) == ProcessAll(Process(b, c).0, rest)
  {
    assert ([c] + rest)[1..] == rest;
  }

  // -------- What the tables hold after any calls, in terms of the events themselves

  lemma {:induction false} OneCallMore(b: Billing, calls: seq<Call>, c: Call)
    ensures ProcessAll(b, calls + [c]) == Process(ProcessAll(b, calls), c).0
    decreases |calls|
  {
    hide Process;
    if calls == [] {
      assert [c][1..] == [];
    } else {
      assert (calls + [c])[1..] == calls[1..] + [c];
      OneCallMore(Process(b, calls[0]).0, calls[1..], c);
    }
  }

  /** The event is marked as processed before call n: it was from the beginning, or a call that could read the
      body had its mark applied. */
  ghost predicate IsMarked(b: Billing, calls: seq<Call>, n: nat, key: EventKey)
    requires n <= |calls|
  {
    key in b.processed || exists k :: 0 <= k < n && calls[k].key == key && calls[k].body.Some? && !calls[k].mark.Err?
  }

  /** Call n applies the update of its body: it is not turned away by the mark, and its statement succeeds. */
  ghost predicate IsEffective(b: Billing, calls: seq<Call>, n: nat) {
    && n < |calls|
    && calls[n].updates && calls[n].body.Some?
    && !(calls[n].lookupOk && IsMarked(b, calls, n, calls[n].key))
  }

  /** The payloads that set a payment, or a subscription. */
  function OfPayment(id: string): Payload -> bool {
    (p: Payload) =>
      && p.payment.Some? && p.payment.value.id == id
      && p.event in {"PAYMENT_RECEIVED", "PAYMENT_CONFIRMED", "PAYMENT_OVERDUE", "PAYMENT_REFUNDED", "PAYMENT_CANCELED"}
  }

  function OfSubscription(id: string): Payload -> bool {
    (p: Payload) =>
      && p.subscription.Some? && p.subscription.value.id == id
      && p.event in {"SUBSCRIPTION_UPDATED", "SUBSCRIPTION_CANCELED", "SUBSCRIPTION_DELETED"}
  }

  ghost predicate Sets(b: Billing, calls: seq<Call>, n: nat, names: Payload -> bool) {
    IsEffective(b, calls, n) && names(calls[n].body.value)
  }

  ghost predicate SetsLast(b: Billing, calls: seq<Call>, n: nat, names: Payload -> bool) {
    Sets(b, calls, n, names) && forall k: nat :: n < k ==> !Sets(b, calls, k, names)
  }

  /** A payment is as call c leaves it: the status is the rest of the event's name. */
  predicate IsLeftBy(row: Payment, c: Call) {
    && c.body.Some?
    && var event := c.body.value.event;
    && "PAYMENT_" + row.status == event
    && row.date == if event in {"PAYMENT_RECEIVED", "PAYMENT_CONFIRMED"} then Some(c.now) else None
  }

  predicate SubscriptionIsLeftBy(row: Subscription, c: Call) {
    && c.body.Some? && c.body.value.subscription.Some? && row.response.None?
    && var event, r := c.body.value.event, c.body.value.subscription.value;
       if event == "SUBSCRIPTION_UPDATED" then row.status == r.status && row.nextBilling == Some(r.due)
       else "SUBSCRIPTION_" + row.status == event && row.nextBilling.None?
  }

  lemma {:induction false} MarksFollowTheCalls(b: Billing, calls: seq<Call>, key: EventKey)
    ensures key in ProcessAll(b, calls).processed <==> IsMarked(b, calls, |calls|, key)
    decreases |calls|
  {
    if calls != [] {
      var front, c := calls[..|calls| - 1], calls[|calls| - 1];
      assert calls == front + [c];
      OneCallMore(b, front, c);
      MarksFollowTheCalls(b, front, key);
      assert IsMarked(b, calls, |front|, key) == IsMarked(b, front, |front|, key);
    }
  }

  /** Whether a call is effective depends on those before it alone. */
  lemma PrefixDecides(b: Billing, calls: seq<Call>, m: nat, n: nat)
    requires n < m <= |calls|
    ensures IsEffective(b, calls, n) == IsEffective(b, calls[..m], n)
  {
    assert IsMarked(b, calls, n, calls[n].key) == IsMarked(b, calls[..m], n, calls[n].key);
  }

  /** One call, with the mark read off the calls before it. */
  lemma LastCallIsEffectiveIff(b: Billing, calls: seq<Call>)
    requires calls != []
    ensures var b', c := ProcessAll(b, calls[..|calls| - 1]), calls[|calls| - 1];
      && ProcessAll(b, calls) == Process(b', c).0
      && (IsEffective(b, calls, |calls| - 1) <==> c.updates && c.body.Some? && !(c.lookupOk && c.key in b'.processed))
  {
    var front := calls[..|calls| - 1];
    assert calls == front + [calls[|front|]];
    OneCallMore(b, front, calls[|front|]);
    MarksFollowTheCalls(b, front, calls[|front|].key);
    assert IsMarked(b, calls, |front|, calls[|front|].key) == IsMarked(b, front, |front|, calls[|front|].key);
  }

  lemma PaymentUpdatesFollow(p: Payload, now: int)
    ensures UpdateFor(p, now).SetPayment? <==> p.payment.Some? && OfPayment(p.payment.value.id)(p)
    ensures var u := UpdateFor(p, now);
      u.SetPayment? ==>
        && u.id == p.payment.value.id && "PAYMENT_" + u.status == p.event
        && u.date == if p.event in {"PAYMENT_RECEIVED", "PAYMENT_CONFIRMED"} then Some(now) else None
  {
  }

  lemma CallSetsPayment(b: Billing, c: Call, id: string)
    requires id in b.payments
    ensures id in Process(b, c).0.payments
    ensures if c.updates && c.body.Some? && !(c.lookupOk && c.key in b.processed) && OfPayment(id)(c.body.value)
      then IsLeftBy(Process(b, c).0.payments[id], c) else Process(b, c).0.payments[id] == b.payments[id]
  {
    hide UpdateFor;
    if c.body.Some? {
      PaymentUpdatesFollow(c.body.value, c.now);
    }
  }

  lemma SubscriptionUpdatesFollow(p: Payload, now: int)
    ensures UpdateFor(p, now).SetSubscription? <==> p.subscription.Some? && OfSubscription(p.subscription.value.id)(p)
    ensures var u := UpdateFor(p, now);
      u.SetSubscription? ==>
        && u.id == p.subscription.value.id
        && if p.event == "SUBSCRIPTION_UPDATED" then
             u.status == p.subscription.value.status && u.nextBilling == Some(p.subscription.value.due)
           else "SUBSCRIPTION_" + u.status == p.event && u.nextBilling.None?
  {
  }

  lemma CallSetsSubscription(b: Billing, c: Call, id: string)
    requires id in b.subscriptions
    ensures id in Process(b, c).0.subscriptions
    ensures if c.updates && c.body.Some? && !(c.lookupOk && c.key in b.processed) && OfSubscription(id)(c.body.value)
      then SubscriptionIsLeftBy(Process(b, c).0.subscriptions[id], c)
      else Process(b, c).0.subscriptions[id] == b.subscriptions[id]
  {
    hide UpdateFor;
    if c.body.Some? {
      SubscriptionUpdatesFollow(c.body.value, c.now);
    }
  }

  lemma SetsAlike(b: Billing, calls: seq<Call>, front: seq<Call>, names: Payload -> bool, n: nat)
    requires calls != [] && front == calls[..|calls| - 1] && n < |front|
    ensures Sets(b, calls, n, names) == Sets(b, front, n, names)
  {
    hide IsEffective;
    PrefixDecides(b, calls, |calls| - 1, n);
  }

  /** The last call sets last, or whoever did before it does. */
  lemma LastOfMore(b: Billing, calls: seq<Call>, front: seq<Call>, names: Payload -> bool, n: nat)
    requires calls != [] && front == calls[..|calls| - 1] && SetsLast(b, calls, n, names)
    ensures n < |calls|
    ensures if n == |front| then Sets(b, calls, n, names) else !Sets(b, calls, |front|, names) && SetsLast(b, front, n, names)
  {
    hide IsMarked;
    if n < |front| {
      SetsAlike(b, calls, front, names, n);
      forall k: nat | n < k
        ensures !Sets(b, front, k, names)
      {
        if k < |front| {
          SetsAlike(b, calls, front, names, k);
        }
      }
    }
  }

  lemma NoneOfMore(b: Billing, calls: seq<Call>, front: seq<Call>, names: Payload -> bool)
    requires calls != [] && front == calls[..|calls| - 1] && forall n: nat :: !Sets(b, calls, n, names)
    ensures forall n: nat :: !Sets(b, front, n, names)
  {
    hide IsMarked;
    forall n: nat
      ensures !Sets(b, front, n, names)
    {
      if n < |front| {
        SetsAlike(b, calls, front, names, n);
      }
    }
  }

  /** The last call that sets a payment decides it, and without one it stays as it was. */
  lemma {:induction false} TheLastEventDecides(b: Billing, calls: seq<Call>, id: string)
    requires id in b.payments
    ensures id in ProcessAll(b, calls).payments
    ensures (forall n: nat :: !Sets(b, calls, n, OfPayment(id))) ==> ProcessAll(b, calls).payments[id] == b.payments[id]
    ensures forall n :: 0 <= n < |calls| && SetsLast(b, calls, n, OfPayment(id)) ==> IsLeftBy(ProcessAll(b, calls).payments[id], calls[n])
    decreases |calls|
  {
    hide Process, IsLeftBy, OfPayment, IsMarked, SetsLast;
    if calls != [] {
      var last := |calls| - 1;
      var front := calls[..last];
      TheLastEventDecides(b, front, id);
      LastCallIsEffectiveIff(b, calls);
      CallSetsPayment(ProcessAll(b, front), calls[last], id);
      if forall n: nat :: !Sets(b, calls, n, OfPayment(id)) {
        NoneOfMore(b, calls, front, OfPayment(id));
        assert !Sets(b, calls, last, OfPayment(id));
      }
      forall n | 0 <= n < |calls| && SetsLast(b, calls, n, OfPayment(id))
        ensures IsLeftBy(ProcessAll(b, calls).payments[id], calls[n])
      {
        LastOfMore(b, calls, front, OfPayment(id), n);
        assert n < |front| ==> front[n] == calls[n];
      }
    }
  }

  lemma {:induction false} TheLastEventDecidesSubscriptions(b: Billing, calls: seq<Call>, id: string)
    requires id in b.subscriptions
    ensures id in ProcessAll(b, calls).subscriptions
    ensures (forall n: nat :: !Sets(b, calls, n, OfSubscription(id))) ==>
      ProcessAll(b, calls).subscriptions[id] == b.subscriptions[id]
    ensures forall n :: 0 <= n < |calls| && SetsLast(b, calls, n, OfSubscription(id)) ==>
      SubscriptionIsLeftBy(ProcessAll(b, calls).subscriptions[id], calls[n])
    decreases |calls|
  {
    hide Process, SubscriptionIsLeftBy, OfSubscription, IsMarked, SetsLast;
    if calls != [] {
      var last := |calls| - 1;
      var front := calls[..last];
      TheLastEventDecidesSubscriptions(b, front, id);
      LastCallIsEffectiveIff(b, calls);
      CallSetsSubscription(ProcessAll(b, front), calls[last], id);
      if forall n: nat :: !Sets(b, calls, n, OfSubscription(id)) {
        NoneOfMore(b, calls, front, OfSubscription(id));
        assert !Sets(b, calls, last, OfSubscription(id));
      }
      forall n | 0 <= n < |calls| && SetsLast(b, calls, n, OfSubscription(id))
        ensures SubscriptionIsLeftBy(ProcessAll(b, calls).subscriptions[id], calls[n])
      {
        LastOfMore(b, calls, front, OfSubscription(id), n);
        assert n < |front| ==> front[n] == calls[n];
      }
    }
  }

  // -------- Payment dates

  predicate IsPaid(status: string) {
    status == "RECEIVED" || status == "CONFIRMED"
  }

  predicate DatesFit(b: Billing) {
    forall id <- b.payments :: b.payments[id].date.Some? <==> IsPaid(b.payments[id].status)
  }

  lemma UpdateDatesFit(p: Payload, now: int)
    ensures var u := UpdateFor(p, now); u.SetPayment? ==> (u.date.Some? <==> IsPaid(u.status))
  {
  }

  lemma CallKeepsDates(b: Billing, c: Call)
    requires DatesFit(b)
    ensures var b' := Process(b, c).0;
      && DatesFit(b')
      && b'.payments.Keys == b.payments.Keys && b'.subscriptions.Keys == b.subscriptions.Keys
      && b.processed <= b'.processed
  {
    if c.body.Some? {
      UpdateDatesFit(c.body.value, c.now);
    }
  }

  /** Through every sequence of calls, failing as they may, a payment has a date exactly while it is paid,
      and no payment or subscription appears or disappears. */
  lemma {:induction false} DatesFollowTheStatus(b: Billing, calls: seq<Call>)
    requires DatesFit(b)
    ensures var b' := ProcessAll(b, calls);
      && DatesFit(b')
      && b'.payments.Keys == b.payments.Keys && b'.subscriptions.Keys == b.subscriptions.Keys
      && b.processed <= b'.processed
    decreases |calls|
  {
    if calls != [] {
      CallKeepsDates(b, calls[0]);
      DatesFollowTheStatus(Process(b, calls[0]).0, calls[1..]);
    }
  }

  // -------- What the migrated schema admits

  const PAYMENT_STATUSES := {"PENDING", "RECEIVED", "CONFIRMED", "OVERDUE", "REFUNDED", "CANCELLED"}

  const SUBSCRIPTION_STATUSES := {"ACTIVE", "INACTIVE", "CANCELLED", "PENDING"}

  /** The CHECK constraints on the status columns. */
  predicate Admits(u: Update) {
    && (u.SetPayment? ==> u.status in PAYMENT_STATUSES)
    && (u.SetSubscription? ==> u.status in SUBSCRIPTION_STATUSES)
  }

  /** The schema refuses exactly the updates that cancel or delete, and those to a status of a subscription
      that it does not know. */
  lemma SchemaRefusesIff(p: Payload, now: int)
    ensures !Admits(UpdateFor(p, now)) <==>
      || (p.event == "PAYMENT_CANCELED" && p.payment.Some?)
      || (p.subscription.Some? && (p.event == "SUBSCRIPTION_CANCELED" || p.event == "SUBSCRIPTION_DELETED"))
      || (p.subscription.Some? && p.event == "SUBSCRIPTION_UPDATED" && p.subscription.value.status !in SUBSCRIPTION_STATUSES)
  {
    CanceledIsUnknown();
  }

  lemma CanceledIsUnknown()
    ensures "CANCELED" !in PAYMENT_STATUSES && "CANCELED" !in SUBSCRIPTION_STATUSES && "DELETED" !in SUBSCRIPTION_STATUSES
  {
    assert forall s <- PAYMENT_STATUSES :: s[0] != 'C' || |s| == 9;
    assert forall s <- SUBSCRIPTION_STATUSES :: (s[0] != 'C' || |s| == 9) && s[0] != 'D';
  }

  /** An update that a constraint refuses is not applied. */
  predicate RespectsSchema(c: Call) {
    c.body.Some? && !Admits(UpdateFor(c.body.value, c.now)) ==> !c.updates
  }

  predicate StatusesAdmitted(b: Billing) {
    && (forall id <- b.payments :: b.payments[id].status in PAYMENT_STATUSES)
    && (forall id <- b.subscriptions :: b.subscriptions[id].status in SUBSCRIPTION_STATUSES)
  }

  /** On the migrated schema no sequence of calls ever cancels a payment or deletes a subscription, though
      each of those events is marked as processed: the code and the constraint spell the word differently. */
  lemma {:induction false} NothingIsEverCanceled(b: Billing, calls: seq<Call>)
    requires StatusesAdmitted(b) && forall c <- calls :: RespectsSchema(c)
    ensures StatusesAdmitted(ProcessAll(b, calls))
    ensures var b' := ProcessAll(b, calls);
      && (forall id <- b'.payments :: b'.payments[id].status != "CANCELED")
      && (forall id <- b'.subscriptions :: b'.subscriptions[id].status !in {"CANCELED", "DELETED"})
    decreases |calls|
  {
    CanceledIsUnknown();
    if calls != [] {
      assert calls[0] in calls;
      assert StatusesAdmitted(Process(b, calls[0]).0);
      NothingIsEverCanceled(Process(b, calls[0]).0, calls[1..]);
    }
  }
}
