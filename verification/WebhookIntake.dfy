/** The receipt of payment webhooks: store the event once, enqueue one job for it, while the job queue and
    other webhook receivers go on. */
module WebhookIntake {
  import opened Prelude
  import opened Strings
  import opened JobStore
  import opened JobProtocol
  import opened JobSafety
  import Json
  import JobTheorems
  import Webhooks

  // -------- Event ids

  /** What an event id is made of. */
  datatype Subject = Subject(isPayment: bool, id: string, event: string)

  function SubjectOf(p: Webhooks.Payload): Option<Subject> {
    if p.payment.Some? && p.payment.value.id != "" then Some(Subject(true, p.payment.value.id, p.event))
    else if p.subscription.Some? && p.subscription.value.id != "" then
      Some(Subject(false, p.subscription.value.id, p.event))
    else None
  }

  function KindName(isPayment: bool): string {
    if isPayment then "payment" else "subscription"
  }

  /** The event id; empty for a payload without a resource. */
  function GenerateEventID(p: Webhooks.Payload): string {
    if p.payment.Some? && p.payment.value.id != "" then "payment:" + p.payment.value.id + ":" + p.event
    else if p.subscription.Some? && p.subscription.value.id != "" then
      "subscription:" + p.subscription.value.id + ":" + p.event
    else ""
  }

  lemma EventIDOfSubject(p: Webhooks.Payload)
    ensures var s := SubjectOf(p);
      && (GenerateEventID(p) == "" <==> s.None?)
      && (s.Some? ==>
            GenerateEventID(p) == KindName(s.value.isPayment) + [':'] + (s.value.id + [':'] + s.value.event))
  {
    var s := SubjectOf(p);
    if s.Some? {
      var k, tail := KindName(s.value.isPayment), s.value.id + ":" + s.value.event;
      assert k + ":" + s.value.id + ":" + s.value.event == k + ":" + tail;
      assert GenerateEventID(p) == (k + ":") + s.value.id + ":" + s.value.event;
    }
  }

  /** Two events get the same id exactly if they are about the same subject, when resource ids have no colon. */
  lemma EventIDsAreUnique(p: Webhooks.Payload, q: Webhooks.Payload)
    requires SubjectOf(p).Some? && SubjectOf(q).Some?
    requires ':' !in SubjectOf(p).value.id && ':' !in SubjectOf(q).value.id
    ensures GenerateEventID(p) == GenerateEventID(q) <==> SubjectOf(p) == SubjectOf(q)
  {
    EventIDOfSubject(p);
    EventIDOfSubject(q);
    var s, t := SubjectOf(p).value, SubjectOf(q).value;
    var sTail, tTail := s.id + [':'] + s.event, t.id + [':'] + t.event;
    SplitOnceFindsTheFirst(KindName(s.isPayment), sTail, ':');
    SplitOnceFindsTheFirst(KindName(t.isPayment), tTail, ':');
    SplitOnceFindsTheFirst(s.id, s.event, ':');
    SplitOnceFindsTheFirst(t.id, t.event, ':');
    if GenerateEventID(p) == GenerateEventID(q) {
      assert [KindName(s.isPayment), sTail][0] == [KindName(t.isPayment), tTail][0];
      assert [KindName(s.isPayment), sTail][1] == [KindName(t.isPayment), tTail][1];
      assert |KindName(true)| != |KindName(false)|;
      assert [s.id, s.event][0] == [t.id, t.event][0] && [s.id, s.event][1] == [t.id, t.event][1];
    }
  }

  /** Where a second subject's id would end inside `id:event`. */
  lemma OtherSplitShowsAColon(id: string, event: string, id': string, event': string)
    requires id != "" && id' != "" && id + [':'] + event == id' + [':'] + event' && id != id'
    ensures ':' in id[1..] || ':' in event
  {
    var s, n := id + [':'] + event, |id'|;
    assert s[n] == ':' && s[..n] == id';
    if n < |id| {
      assert id[1..][n - 1] == ':';
    } else {
      assert n != |id| by {
        assert s[..|id|] == id;
      }
      assert event[n - |id| - 1] == ':';
    }
  }

  function Body(s: Subject): Webhooks.Payload {
    if s.isPayment then Webhooks.Payload(s.event, Some(Webhooks.Resource(s.id, "", 0)), None)
    else Webhooks.Payload(s.event, None, Some(Webhooks.Resource(s.id, "", 0)))
  }

  /** A payload about subject `to` has the same event id as one about `s` when its id and event do. */
  lemma SameTextSameID(p: Webhooks.Payload, s: Subject, to: Subject)
    requires SubjectOf(p) == Some(s) && to.isPayment == s.isPayment && to.id != "" && to != s
    requires to.id + [':'] + to.event == s.id + [':'] + s.event
    ensures SharesItsID(p)
  {
    EventIDOfSubject(p);
    EventIDOfSubject(Body(to));
    assert SubjectOf(Body(to)) == Some(to) && GenerateEventID(Body(to)) == GenerateEventID(p);
  }

  /** Some payload about another subject has the same event id. */
  ghost predicate SharesItsID(p: Webhooks.Payload) {
    exists q :: SubjectOf(q).Some? && SubjectOf(q) != SubjectOf(p) && GenerateEventID(q) == GenerateEventID(p)
  }

  /** A payload shares its event id with one about another subject exactly if there is a colon in its resource
      id after the first character, or in its event name. */
  lemma SharesItsIDIff(p: Webhooks.Payload)
    requires SubjectOf(p).Some?
    ensures SharesItsID(p) <==> ':' in SubjectOf(p).value.id[1..] || ':' in SubjectOf(p).value.event
  {
    var s := SubjectOf(p).value;
    if SharesItsID(p) {
      var q :| SubjectOf(q).Some? && SubjectOf(q) != SubjectOf(p) && GenerateEventID(q) == GenerateEventID(p);
      SameIDSameText(p, q);
      OtherSplitShowsAColon(s.id, s.event, SubjectOf(q).value.id, SubjectOf(q).value.event);
    } else if ':' in s.id[1..] || ':' in s.event {
      AColonGivesAnotherSplit(p);
    }
  }

  lemma AColonGivesAnotherSplit(p: Webhooks.Payload)
    requires SubjectOf(p).Some? && (':' in SubjectOf(p).value.id[1..] || ':' in SubjectOf(p).value.event)
    ensures SharesItsID(p)
  {
    var s := SubjectOf(p).value;
    if ':' in s.id[1..] {
      var i :| 0 <= i < |s.id[1..]| && s.id[1..][i] == ':';
      var to := Subject(s.isPayment, s.id[..i + 1], s.id[i + 2..] + [':'] + s.event);
      assert s.id == s.id[..i + 1] + [':'] + s.id[i + 2..];
      assert to.id + [':'] + to.event == s.id + [':'] + s.event;
      assert |to.id| != |s.id|;
      SameTextSameID(p, s, to);
    } else {
      var i :| 0 <= i < |s.event| && s.event[i] == ':';
      var to := Subject(s.isPayment, s.id + [':'] + s.event[..i], s.event[i + 1..]);
      assert s.event == s.event[..i] + [':'] + s.event[i + 1..];
      assert to.id + [':'] + to.event == s.id + [':'] + s.event;
      assert |to.id| != |s.id|;
      SameTextSameID(p, s, to);
    }
  }

  lemma SameIDSameText(p: Webhooks.Payload, q: Webhooks.Payload)
    requires SubjectOf(p).Some? && SubjectOf(q).Some? && SubjectOf(q) != SubjectOf(p)
    requires GenerateEventID(q) == GenerateEventID(p)
    ensures var s, to := SubjectOf(p).value, SubjectOf(q).value;
      && s.id + [':'] + s.event == to.id + [':'] + to.event && s.id != to.id && to.id != ""
  {
    EventIDOfSubject(p);
    EventIDOfSubject(q);
    var s, to := SubjectOf(p).value, SubjectOf(q).value;
    var sTail, tTail := s.id + [':'] + s.event, to.id + [':'] + to.event;
    SplitOnceFindsTheFirst(KindName(s.isPayment), sTail, ':');
    SplitOnceFindsTheFirst(KindName(to.isPayment), tTail, ':');
    assert [KindName(s.isPayment), sTail][0] == [KindName(to.isPayment), tTail][0];
    assert [KindName(s.isPayment), sTail][1] == [KindName(to.isPayment), tTail][1];
    assert |KindName(true)| != |KindName(false)|;
    CancelPrefix(s.id + [':'], s.event, to.event);
  }

  /** With a colon in an id, different events can share an event id. */
  lemma ColonsMakeEventsCollide()
    ensures exists p, q ::
      SubjectOf(p).Some? && SubjectOf(q).Some? && SubjectOf(p) != SubjectOf(q) && GenerateEventID(p) == GenerateEventID(q)
  {
    var p := Webhooks.Payload("c", Some(Webhooks.Resource("a:b", "", 0)), None);
    var q := Webhooks.Payload("b:c", Some(Webhooks.Resource("a", "", 0)), None);
    assert |SubjectOf(p).value.id| != |SubjectOf(q).value.id|;
    assert "payment:" + "a:b" + ":" + "c" == "payment:" + "a" + ":" + "b:c";
    assert GenerateEventID(p) == GenerateEventID(q);
  }

  // -------- The webhook table

  /** A row of `webhooks`; its id is its position, since no row is ever deleted. */
  datatype Row = Row(source: string, external: string, payload: string)

  const SOURCE := "asaas"

  function IndexOf(rows: seq<Row>, source: string, external: string): (n: nat)
    ensures n <= |rows|
    ensures n < |rows| ==> rows[n].source == source && rows[n].external == external
  {
    if rows == [] then 0
    else if rows[0].source == source && rows[0].external == external then 0
    else 1 + IndexOf(rows[1..], source, external)
  }

  /** INSERT ... ON CONFLICT(source, external_id) DO UPDATE SET payload. */
  function Upsert(rows: seq<Row>, row: Row): seq<Row> {
    var n := IndexOf(rows, row.source, row.external);
    if n < |rows| then rows[n := row] else rows + [row]
  }

  predicate Is(row: Row, source: string, external: string) {
    row.source == source && row.external == external
  }

  predicate NoTwins(rows: seq<Row>) {
    forall i, j :: 0 <= i < j < |rows| ==> !Is(rows[j], rows[i].source, rows[i].external)
  }

  lemma {:induction false} IndexOfIsFirst(rows: seq<Row>, source: string, external: string)
    ensures forall i :: 0 <= i < IndexOf(rows, source, external) ==> !Is(rows[i], source, external)
  {
    if rows != [] && !Is(rows[0], source, external) {
      IndexOfIsFirst(rows[1..], source, external);
      assert forall i :: 0 < i < |rows| ==> rows[i] == rows[1..][i - 1];
    }
  }

  lemma IndexOfIs(rows: seq<Row>, source: string, external: string, n: nat)
    requires NoTwins(rows) && n < |rows| && Is(rows[n], source, external)
    ensures IndexOf(rows, source, external) == n
  {
    IndexOfIsFirst(rows, source, external);
  }

  lemma NoIndexOf(rows: seq<Row>, source: string, external: string)
    requires forall i :: 0 <= i < |rows| ==> !Is(rows[i], source, external)
    ensures IndexOf(rows, source, external) == |rows|
  {
  }

  lemma UpsertHasNoTwins(rows: seq<Row>, row: Row)
    requires NoTwins(rows)
    ensures NoTwins(Upsert(rows, row))
  {
    IndexOfIsFirst(rows, row.source, row.external);
  }

  /** The upsert keeps every pair of source and external id on its row, and adds one only at the end. */
  lemma UpsertKeepsOthers(rows: seq<Row>, row: Row, source: string, external: string)
    requires NoTwins(rows) && !Is(row, source, external)
    ensures var rows', n := Upsert(rows, row), IndexOf(rows, source, external);
      if n < |rows| then n < |rows'| && rows'[n] == rows[n] && IndexOf(rows', source, external) == n
      else IndexOf(rows', source, external) == |rows'|
  {
    var rows', n := Upsert(rows, row), IndexOf(rows, source, external);
    UpsertHasNoTwins(rows, row);
    IndexOfIsFirst(rows, source, external);
    if n < |rows| {
      assert rows'[n] == rows[n];
      IndexOfIs(rows', source, external, n);
    } else {
      NoIndexOf(rows', source, external);
    }
  }

  lemma UpsertWrites(rows: seq<Row>, row: Row)
    requires NoTwins(rows)
    ensures var rows', n := Upsert(rows, row), IndexOf(rows, row.source, row.external);
      n < |rows'| && rows'[n] == row && IndexOf(rows', row.source, row.external) == n
  {
    UpsertHasNoTwins(rows, row);
    IndexOfIs(Upsert(rows, row), row.source, row.external, IndexOf(rows, row.source, row.external));
  }

  // -------- The job queue meanwhile

  predicate IsOurs(key: Option<string>) {
    key.Some? && SOURCE + ":" <= key.value
  }

  /** Rows stay and do the same work; new ones do not carry our keys. */
  ghost predicate KeepsKeys(jobs: Jobs, jobs': Jobs) {
    Grows(jobs, jobs') && forall j <- jobs' :: j in jobs || !IsOurs(jobs'[j].key)
  }

  lemma RowKeepsKeys(jobs: Jobs, id: nat, row: Job)
    requires id in jobs && SameWork(row, jobs[id])
    ensures KeepsKeys(jobs, jobs[id := row])
  {
  }

  lemma NothingKeepsKeys(jobs: Jobs)
    ensures KeepsKeys(jobs, jobs)
  {
  }

  lemma CompleteKeepsKeys(t: Tables, id: nat)
    ensures KeepsKeys(t.jobs, AfterComplete(t, id).jobs)
  {
    hide KeepsKeys;
    NothingKeepsKeys(t.jobs);
    if id in t.jobs {
      RowKeepsKeys(t.jobs, id, t.jobs[id].(status := Completed));
    }
  }

  lemma FailKeepsKeys(t: Tables, id: nat, error: string)
    ensures KeepsKeys(t.jobs, AfterFail(t, id, error).jobs)
  {
    hide KeepsKeys;
    NothingKeepsKeys(t.jobs);
    if id in t.jobs {
      RowKeepsKeys(t.jobs, id, t.jobs[id].(status := Status.Failed, lastError := Some(error)));
    }
  }

  lemma NextRetryKeepsKeys(t: Tables, id: nat, at: int)
    ensures KeepsKeys(t.jobs, AfterNextRetry(t, id, at).jobs)
  {
    hide KeepsKeys;
    NothingKeepsKeys(t.jobs);
    if id in t.jobs {
      RowKeepsKeys(t.jobs, id, t.jobs[id].(nextRetryAt := Some(at)));
    }
  }

  lemma WorkKeepsKeys(s: Sys, w: nat, e: WorkStep)
    requires CanWork(s, w, e)
    ensures KeepsKeys(s.t.jobs, DoWork(s, w, e).t.jobs)
  {
    hide KeepsKeys, AfterComplete, AfterFail, AfterNextRetry;
    NothingKeepsKeys(s.t.jobs);
    match e {
      case Pick(id, _) => RowKeepsKeys(s.t.jobs, id, AfterPick(s.t, s.now, id, w).jobs[id]);
      case Complete(_) => CompleteKeepsKeys(s.t, PcOf(s, w).id);
      case Postpone(at, _) => NextRetryKeepsKeys(s.t, PcOf(s, w).id, at);
      case Fail(_) => FailKeepsKeys(s.t, PcOf(s, w).id, PcOf(s, w).error);
      case _ =>
    }
  }

  lemma WriteKeepsKeys(s: Sys, e: WriteStep)
    requires CanWrite(s, e)
    ensures KeepsKeys(s.t.jobs, DoWrite(s, e).t.jobs)
  {
    hide KeepsKeys, AfterComplete, AfterFail;
    NothingKeepsKeys(s.t.jobs);
    if e.Apply? {
      match s.writer.hand.req.kind {
        case WriteProcessed =>
        case WriteComplete => CompleteKeepsKeys(s.t, s.writer.hand.req.id);
        case WriteFail(error) => FailKeepsKeys(s.t, s.writer.hand.req.id, error);
      }
    }
  }

  lemma SweepsKeepKeys(s: Sys, e: SweepStep)
    ensures CanSweep(s, s.checker, CHECK_AGE, e) ==> KeepsKeys(s.t.jobs, DoCheck(s, e).t.jobs)
    ensures CanSweep(s, s.rescuer, RESCUE_AGE, e) ==> KeepsKeys(s.t.jobs, DoRescue(s, e).t.jobs)
  {
    hide KeepsKeys, AfterFail, AfterNextRetry;
    NothingKeepsKeys(s.t.jobs);
    if CanSweep(s, s.checker, CHECK_AGE, e) && !e.List? {
      FailKeepsKeys(s.t, s.checker.rest[0].id, "Job timed out");
    }
    if CanSweep(s, s.rescuer, RESCUE_AGE, e) && !e.List? {
      NextRetryKeepsKeys(s.t, s.rescuer.rest[0].id, s.now);
      FailKeepsKeys(s.t, s.rescuer.rest[0].id, "Job rescued from zombie state");
    }
  }

  lemma InsertKeepsKeys(t: Tables, row: Job)
    requires TablesOk(t) && !IsOurs(row.key)
    ensures KeepsKeys(t.jobs, AfterInsert(t, row).jobs)
  {
  }

  lemma AdminKeepsKeys(s: Sys, a: nat, e: AdminStep)
    requires TablesOk(s.t) && CanAdminister(s, a, e)
    ensures KeepsKeys(s.t.jobs, DoAdminister(s, a, e).t.jobs)
  {
    hide KeepsKeys, AfterInsert;
    NothingKeepsKeys(s.t.jobs);
    if e.Insert? {
      InsertKeepsKeys(s.t, RetriedJob(AdminOf(s, a).rest[0].row));
    }
  }

  /** Every step of the job queue but the enqueueing of one of our keys keeps our rows and adds none. */
  lemma QueueKeepsKeys(s: Sys, e: Step)
    requires TablesOk(s.t) && !(e.EnqueueKeyed? && IsOurs(e.key))
    ensures KeepsKeys(s.t.jobs, Do(s, e).t.jobs)
  {
    hide KeepsKeys, DoWork, DoWrite, DoCheck, DoRescue, DoAdminister;
    NothingKeepsKeys(s.t.jobs);
    if JobProtocol.Enabled(s, e) {
      match e {
        case Enqueue(tenant, typ, payload) => InsertKeepsKeys(s.t, NewJob(tenant, typ, payload, s.now, None));
        case EnqueueKeyed(tenant, typ, payload, key) => InsertKeepsKeys(s.t, NewJob(tenant, typ, payload, s.now, key));
        case Work(w, x) => WorkKeepsKeys(s, w, x);
        case Write(x) => WriteKeepsKeys(s, x);
        case Check(x) => SweepsKeepKeys(s, x);
        case Rescue(x) => SweepsKeepKeys(s, x);
        case Administer(a, x) => AdminKeepsKeys(s, a, x);
        case _ =>
      }
    }
  }

  // -------- Deliveries

  function BeforeEvent(): string { "{\"event_id\":\"" }

  function BeforeSource(): string { ",\"source\":\"" }

  function BeforeNumber(): string { ",\"webhook_id\":" }

  /** The payload of the job for an event: the event's id, its source and the webhook row it is about. */
  function JobPayload(row: nat, event: string): string {
    BeforeEvent() + (Json.Escaped(event) + (['"'] + (
      BeforeSource() + (Json.Escaped("asaas") + (['"'] + (
        BeforeNumber() + (Json.Digits(row) + "}")))))))
  }

  /** What the handler of webhook jobs takes from a payload. */
  datatype JobData = JobData(event: string, source: string, webhook: nat)

  /** What follows a given beginning. */
  function After(s: string, p: string): Option<string> {
    if p <= s then Some(s[|p|..]) else None
  }

  /** The payload as the handler reads it: two strings and a number, and the end of the object. */
  function ReadJob(payload: string): Option<JobData> {
    var s1 := After(payload, BeforeEvent());
    var event := if s1.Some? then Json.ReadString(s1.value) else None;
    var s2 := if event.Some? then After(event.value.1, BeforeSource()) else None;
    var source := if s2.Some? then Json.ReadString(s2.value) else None;
    var s3 := if source.Some? then After(source.value.1, BeforeNumber()) else None;
    if s3.None? || s3.value == "" || !('0' <= s3.value[0] <= '9') then None else
      var number := Json.ReadNumber(0, s3.value);
      if number.1 == "}" then Some(JobData(event.value.0, source.value.0, number.0)) else None
  }

  lemma AfterIsRest(p: string, s: string)
    ensures After(p + s, p) == Some(s)
  {
  }

  lemma DigitsBegin(n: nat, s: string)
    ensures var text := Json.Digits(n) + s; text != "" && '0' <= text[0] <= '9'
  {
    if n >= 10 {
      DigitsBegin(n / 10, s);
      assert Json.Digits(n)[0] == Json.Digits(n / 10)[0] == (Json.Digits(n / 10) + s)[0];
    }
  }

  /** The handler reads from a payload the event and the webhook row it was written for. */
  lemma PayloadIsReadBack(n: nat, x: string)
    ensures ReadJob(JobPayload(n, x)) == Some(JobData(x, "asaas", n))
  {
    hide After, BeforeEvent, BeforeSource, BeforeNumber;
    var number := Json.Digits(n) + "}";
    var fromNumber := BeforeNumber() + number;
    var fromSource := BeforeSource() + (Json.Escaped("asaas") + (['"'] + fromNumber));
    AfterIsRest(BeforeEvent(), Json.Escaped(x) + (['"'] + fromSource));
    Json.StringsAreReadBack(x, fromSource);
    AfterIsRest(BeforeSource(), Json.Escaped("asaas") + (['"'] + fromNumber));
    Json.StringsAreReadBack("asaas", fromNumber);
    AfterIsRest(BeforeNumber(), number);
    DigitsBegin(n, "}");
    Json.NumbersAreReadBack(n, "}");
  }

  lemma NothingIsEscaped()
    ensures Json.Escaped("asaas") == "asaas"
  {
    assert "asaas"[1..] == "saas" && "saas"[1..] == "aas" && "aas"[1..] == "as" && "as"[1..] == "s" && "s"[1..] == "";
    assert Json.Escaped("s") == "s";
    assert Json.Escaped("as") == "as";
    assert Json.Escaped("aas") == "aas";
    assert Json.Escaped("saas") == "saas";
  }

  /** The payload is this JSON object. */
  lemma PayloadIsThisObject(n: nat, x: string)
    ensures JobPayload(n, x)
      == "{\"event_id\":\"" + Json.Escaped(x) + "\",\"source\":\"" + "asaas" + "\",\"webhook_id\":" + Json.Digits(n) + "}"
  {
    hide Json.Escaped, Json.Digits;
    NothingIsEscaped();
    assert ['"'] + BeforeSource() == "\",\"source\":\"";
    assert ['"'] + BeforeNumber() == "\",\"webhook_id\":";
  }

  function Key(event: string): Option<string> {
    Some(SOURCE + ":" + event)
  }

  lemma KeyReads(event: string)
    ensures Key(event) == Some("asaas:" + event)
  {
    assert SOURCE + ":" == "asaas:";
  }

  function WebhookJob(row: nat, event: string, now: int): Job {
    NewJob(None, "process_webhook", JobPayload(row, event), now, Key(event))
  }

  /** How storing ends: done, done but reported as an error, refused with a message about a UNIQUE
      constraint, or failed otherwise. */
  datatype Stored = Done | Unseen | Conflict | Failed

  datatype Receipt = Receipt(event: string, row: nat)

  /** `open` are the deliveries between their two statements.  The rest is history: the last body stored
      for each event, the events an enqueueing took effect for, and the answers given. */
  datatype State = State(
    rows: seq<Row>,
    queue: Sys,
    open: map<nat, Receipt>,
    bodies: map<string, string>,
    enqueued: set<string>,
    answers: map<nat, int>)

  datatype Event =
    | Store(d: nat, p: Webhooks.Payload, body: string, result: Stored)
    | Enqueue(d: nat, outcome: Outcome)
    | Generic(row: Row)
    | Queue(e: Step)

  predicate CanDo(s: State, e: Event) {
    match e
    case Store(d, _, _, _) => d !in s.open && d !in s.answers
    case Enqueue(d, _) => d in s.open
    case Generic(row) => row.source != SOURCE
    case Queue(x) => !(x.EnqueueKeyed? && IsOurs(x.key))
  }

  function Answer(s: State, d: nat, code: int): State {
    s.(answers := s.answers[d := code], open := s.open - {d})
  }

  /** The row is stored and the delivery goes on to its job. */
  function AfterStore(s: State, d: nat, event: string, body: string): State {
    var n := IndexOf(s.rows, SOURCE, event);
    s.(rows := Upsert(s.rows, Row(SOURCE, event, body)), bodies := s.bodies[event := body],
       open := s.open[d := Receipt(event, n)])
  }

  function AfterEnqueue(s: State, event: string, row: nat): State {
    s.(queue := Do(s.queue, EnqueueKeyed(None, "process_webhook", JobPayload(row, event), Key(event))),
       enqueued := s.enqueued + {event})
  }

  function DoStep(s: State, e: Event): State
    requires CanDo(s, e)
  {
    match e
    case Store(d, p, body, result) =>
      var event := GenerateEventID(p);
      if event == "" then Answer(s, d, 400) else (
        match result
        case Done => AfterStore(s, d, event, body)
        case Unseen => Answer(AfterStore(s, d, event, body), d, 500)
        case Conflict => Answer(s, d, 200)
        case Failed => Answer(s, d, 500))
    case Enqueue(d, o) =>
      var r := s.open[d];
      Answer(if o.Applied() then AfterEnqueue(s, r.event, r.row) else s, d, 200)
    case Generic(row) => s.(rows := Upsert(s.rows, row))
    case Queue(x) => s.(queue := Do(s.queue, x))
  }

  ghost predicate IsRun(s: State, es: seq<Event>, s': State)
    decreases |es|
  {
    if es == [] then s' == s else CanDo(s, es[0]) && IsRun(DoStep(s, es[0]), es[1..], s')
  }

  function Begin(cfg: Config, now: int): State {
    State([], Start(cfg, now), map[], map[], {}, map[])
  }

  ghost predicate Reachable(s: State) {
    exists cfg: Config, now: int, es: seq<Event> :: IsRun(Begin(cfg, now), es, s)
  }

  // -------- What holds in every reachable state

  /** The webhook row of an event: there exactly if it was stored, with the last body stored. */
  predicate RowOf(rows: seq<Row>, bodies: map<string, string>, event: string) {
    var n := IndexOf(rows, SOURCE, event);
    if event in bodies then n < |rows| && rows[n].payload == bodies[event] else n == |rows|
  }

  predicate IsJobOf(row: Job, n: nat, event: string) {
    row.key == Key(event) && row.typ == "process_webhook" && row.payload == JobPayload(n, event)
  }

  /** The job row of an event: there exactly if one was enqueued, and about the event's webhook row. */
  ghost predicate JobOf(jobs: Jobs, rows: seq<Row>, enqueued: set<string>, event: string) {
    if event in enqueued then exists j :: j in jobs && IsJobOf(jobs[j], IndexOf(rows, SOURCE, event), event)
    else forall j <- jobs :: jobs[j].key != Key(event)
  }

  predicate ReceiptsOk(rows: seq<Row>, bodies: map<string, string>, open: map<nat, Receipt>) {
    forall d <- open :: open[d].event in bodies && open[d].row == IndexOf(rows, SOURCE, open[d].event)
  }

  ghost predicate Inv(s: State) {
    && NoTwins(s.rows) && TablesOk(s.queue.t)
    && ReceiptsOk(s.rows, s.bodies, s.open)
    && s.enqueued <= s.bodies.Keys
    && (forall event: string :: RowOf(s.rows, s.bodies, event))
    && (forall event: string :: JobOf(s.queue.t.jobs, s.rows, s.enqueued, event))
  }

  lemma AfterStoreKeeps(s: State, d: nat)
    requires Inv(s)
    ensures forall event, body :: Inv(AfterStore(s, d, event, body))
  {
    forall event: string, body: string
      ensures Inv(AfterStore(s, d, event, body))
    {
      var s', row := AfterStore(s, d, event, body), Row(SOURCE, event, body);
      UpsertHasNoTwins(s.rows, row);
      forall x: string
        ensures RowOf(s'.rows, s'.bodies, x)
        ensures x in s.bodies ==> IndexOf(s'.rows, SOURCE, x) == IndexOf(s.rows, SOURCE, x)
      {
        assert RowOf(s.rows, s.bodies, x);
        if x == event {
          UpsertWrites(s.rows, row);
        } else {
          UpsertKeepsOthers(s.rows, row, SOURCE, x);
        }
      }
      UpsertWrites(s.rows, row);
      forall x: string
        ensures JobOf(s'.queue.t.jobs, s'.rows, s'.enqueued, x)
      {
        assert JobOf(s.queue.t.jobs, s.rows, s.enqueued, x);
      }
    }
  }

  lemma GenericKeeps(s: State)
    requires Inv(s)
    ensures forall row: Row :: row.source != SOURCE ==> Inv(DoStep(s, Generic(row)))
  {
    forall row: Row | row.source != SOURCE
      ensures Inv(DoStep(s, Generic(row)))
    {
      var s' := DoStep(s, Generic(row));
      UpsertHasNoTwins(s.rows, row);
      forall x: string
        ensures RowOf(s'.rows, s'.bodies, x)
        ensures x in s.bodies ==> IndexOf(s'.rows, SOURCE, x) == IndexOf(s.rows, SOURCE, x)
      {
        assert RowOf(s.rows, s.bodies, x);
        UpsertKeepsOthers(s.rows, row, SOURCE, x);
      }
      forall x: string
        ensures JobOf(s'.queue.t.jobs, s'.rows, s'.enqueued, x)
      {
        assert JobOf(s.queue.t.jobs, s.rows, s.enqueued, x);
      }
    }
  }

  lemma KeysDiffer(a: string, b: string)
    ensures Key(a) == Key(b) ==> a == b
    ensures IsOurs(Key(a))
  {
    CancelPrefix(SOURCE + ":", a, b);
  }

  lemma KeepingKeysKeepsJobs(jobs: Jobs, jobs': Jobs, rows: seq<Row>, enqueued: set<string>, x: string)
    requires KeepsKeys(jobs, jobs') && JobOf(jobs, rows, enqueued, x)
    ensures JobOf(jobs', rows, enqueued, x)
  {
    KeysDiffer(x, x);
    if x in enqueued {
      var j :| j in jobs && IsJobOf(jobs[j], IndexOf(rows, SOURCE, x), x);
      assert SameWork(jobs[j], jobs'[j]);
    }
  }

  lemma QueueKeeps(s: State, e: Step)
    requires Inv(s) && CanDo(s, Queue(e)) && TablesOk(Do(s.queue, e).t)
    ensures Inv(DoStep(s, Queue(e)))
  {
    QueueKeepsKeys(s.queue, e);
    forall x: string
      ensures JobOf(Do(s.queue, e).t.jobs, s.rows, s.enqueued, x)
    {
      assert JobOf(s.queue.t.jobs, s.rows, s.enqueued, x);
      KeepingKeysKeepsJobs(s.queue.t.jobs, Do(s.queue, e).t.jobs, s.rows, s.enqueued, x);
    }
  }

  lemma KeyedInsert(t: Tables, row: Job)
    requires TablesOk(t)
    ensures var t' := AfterInsertKeyed(t, row);
      if HasKey(t, row.key) then t' == t
      else t'.jobs == t.jobs[t.nextJob := row] && t.nextJob !in t.jobs && forall j <- t.jobs :: t.jobs[j].key != row.key || row.key.None?
  {
  }

  /** The enqueueing step is the keyed insert. */
  lemma EnqueueInserts(s: Sys, payload: string, event: string)
    ensures Do(s, EnqueueKeyed(None, "process_webhook", payload, Key(event)))
      == s.(t := AfterInsertKeyed(s.t, NewJob(None, "process_webhook", payload, s.now, Key(event))))
  {
  }

  lemma AfterEnqueueKeeps(s: State, r: Receipt)
    requires Inv(s) && r.event in s.bodies && r.row == IndexOf(s.rows, SOURCE, r.event)
    requires TablesOk(AfterEnqueue(s, r.event, r.row).queue.t)
    ensures Inv(AfterEnqueue(s, r.event, r.row))
  {
    hide Do;
    var s', row := AfterEnqueue(s, r.event, r.row), WebhookJob(r.row, r.event, s.queue.now);
    var jobs, jobs' := s.queue.t.jobs, s'.queue.t.jobs;
    EnqueueInserts(s.queue, JobPayload(r.row, r.event), r.event);
    KeyedInsert(s.queue.t, row);
    forall x: string
      ensures JobOf(jobs', s.rows, s'.enqueued, x)
    {
      assert JobOf(jobs, s.rows, s.enqueued, x);
      KeysDiffer(x, r.event);
      if x == r.event && x !in s.enqueued {
        assert IsJobOf(jobs'[s.queue.t.nextJob], IndexOf(s.rows, SOURCE, x), x);
      } else if x in s.enqueued {
        var j :| j in jobs && IsJobOf(jobs[j], IndexOf(s.rows, SOURCE, x), x);
        assert j in jobs' && jobs'[j] == jobs[j];
      }
    }
  }

  lemma QueueStaysReachable(s: Sys)
    requires JobProtocol.Reachable(s)
    ensures forall e :: JobProtocol.Reachable(Do(s, e)) && TablesOk(Do(s, e).t)
  {
    forall e: Step
      ensures JobProtocol.Reachable(Do(s, e)) && TablesOk(Do(s, e).t)
    {
      JobTheorems.RunStaysReachable(s, [e]);
      assert [e][1..] == [];
      assert Run(s, [e]) == Run(Do(s, e), []);
      JobSafety.ReachableIsSafe(Do(s, e));
    }
  }

  lemma AnswerKeeps(s: State, d: nat, code: int)
    requires Inv(s)
    ensures Inv(Answer(s, d, code))
  {
    assert forall x: string :: RowOf(s.rows, s.bodies, x) && JobOf(s.queue.t.jobs, s.rows, s.enqueued, x);
  }

  lemma StoreKeeps(s: State, e: Event)
    requires Inv(s) && CanDo(s, e) && e.Store?
    ensures Inv(DoStep(s, e))
  {
    var event := GenerateEventID(e.p);
    var stored := AfterStore(s, e.d, event, e.body);
    AfterStoreKeeps(s, e.d);
    AnswerKeeps(stored, e.d, 500);
    AnswerKeeps(s, e.d, 500);
    AnswerKeeps(s, e.d, 200);
    AnswerKeeps(s, e.d, 400);
  }

  lemma StepKeeps(s: State, e: Event)
    requires Inv(s) && CanDo(s, e) && JobProtocol.Reachable(s.queue)
    ensures Inv(DoStep(s, e)) && JobProtocol.Reachable(DoStep(s, e).queue)
  {
    match e {
      case Store(_, _, _, _) => StoreKeeps(s, e);
      case Generic(row) => GenericKeeps(s);
      case Queue(x) =>
        QueueStaysReachable(s.queue);
        QueueKeeps(s, x);
      case Enqueue(d, o) =>
        var r := s.open[d];
        QueueStaysReachable(s.queue);
        AfterEnqueueKeeps(s, r);
        AnswerKeeps(if o.Applied() then AfterEnqueue(s, r.event, r.row) else s, d, 200);
    }
  }

  lemma {:induction false} RunKeepsInv(s: State, es: seq<Event>)
    requires Inv(s) && JobProtocol.Reachable(s.queue)
    ensures forall s' :: IsRun(s, es, s') ==> Inv(s') && JobProtocol.Reachable(s'.queue)
    decreases |es|
  {
    hide Inv;
    if es != [] && CanDo(s, es[0]) {
      StepKeeps(s, es[0]);
      RunKeepsInv(DoStep(s, es[0]), es[1..]);
    }
  }

  lemma ReachableIsConsistent(s: State)
    requires Reachable(s)
    ensures Inv(s) && JobProtocol.Reachable(s.queue)
  {
    var cfg: Config, now: int, es: seq<Event> :| IsRun(Begin(cfg, now), es, s);
    var s0 := Begin(cfg, now);
    assert s0.queue == Run(Start(cfg, now), []);
    assert Start(cfg, now).t == EMPTY;
    assert forall x: string :: RowOf(s0.rows, s0.bodies, x) && JobOf(s0.queue.t.jobs, s0.rows, s0.enqueued, x);
    RunKeepsInv(s0, es);
  }

  // -------- The promises

  /** Any number of deliveries of an event, in any interleaving and with any failures, leave exactly one
      webhook row, holding the body stored last, once one of them stored it, and none before. */
  lemma OneWebhookRowPerEvent(s: State, event: string)
    requires Reachable(s)
    ensures forall i, j :: 0 <= i < j < |s.rows| && Is(s.rows[i], SOURCE, event) ==> !Is(s.rows[j], SOURCE, event)
    ensures event in s.bodies <==> exists i :: 0 <= i < |s.rows| && Is(s.rows[i], SOURCE, event)
    ensures event in s.bodies ==> Row(SOURCE, event, s.bodies[event]) in s.rows
  {
    ReachableIsConsistent(s);
    assert RowOf(s.rows, s.bodies, event);
    IndexOfIsFirst(s.rows, SOURCE, event);
    forall i, j | 0 <= i < j < |s.rows| && Is(s.rows[i], SOURCE, event)
      ensures !Is(s.rows[j], SOURCE, event)
    {
    }
  }

  /** The i-th handler call of the queue was for the row under the event's key. */
  predicate RunsFor(s: Sys, i: nat, event: string) {
    i < |s.hist.runs| && s.hist.runs[i] in s.t.jobs && s.t.jobs[s.hist.runs[i]].key == Key(event)
  }

  /** They leave one job row at most, there exactly if an enqueueing took effect; what the handler reads from
      its payload is the event and the number of that webhook row; and the queue calls its handler at most once. */
  lemma OneJobPerEvent(s: State, event: string)
    requires Reachable(s)
    ensures forall i <- s.queue.t.jobs, j <- s.queue.t.jobs ::
      s.queue.t.jobs[i].key == Some("asaas:" + event) == s.queue.t.jobs[j].key ==> i == j
    ensures event in s.enqueued <==> exists j :: j in s.queue.t.jobs && s.queue.t.jobs[j].key == Some("asaas:" + event)
    ensures event in s.enqueued ==> event in s.bodies && exists j ::
      j in s.queue.t.jobs && IsAbout(s.queue.t.jobs[j], s.rows, event, s.bodies[event])
    ensures forall i, k :: 0 <= i < k < |s.queue.hist.runs| ==>
      !(RunsFor(s.queue, i, event) && RunsFor(s.queue, k, event))
  {
    ReachableIsConsistent(s);
    hide IsAbout, ReadJob, JobPayload;
    KeyReads(event);
    JobSafety.ReachableIsSafe(s.queue);
    assert JobOf(s.queue.t.jobs, s.rows, s.enqueued, event);
    if event in s.enqueued {
      var n := IndexOf(s.rows, SOURCE, event);
      var j :| j in s.queue.t.jobs && IsJobOf(s.queue.t.jobs[j], n, event);
      JobReadsBack(s, j, n, event);
    }
  }

  /** A job under the event's key; its payload reads as the event and the number of the event's webhook row,
      which holds the body. */
  predicate IsAbout(job: Job, rows: seq<Row>, event: string, body: string) {
    && job.key == Some("asaas:" + event) && job.typ == "process_webhook"
    && var read := ReadJob(job.payload);
       && read.Some? && read.value.event == event && read.value.source == "asaas"
       && read.value.webhook < |rows| && rows[read.value.webhook] == Row("asaas", event, body)
  }

  lemma JobReadsBack(s: State, j: nat, n: nat, event: string)
    requires Inv(s) && j in s.queue.t.jobs && n == IndexOf(s.rows, SOURCE, event) && event in s.bodies
    requires IsJobOf(s.queue.t.jobs[j], n, event)
    ensures IsAbout(s.queue.t.jobs[j], s.rows, event, s.bodies[event])
  {
    hide ReadJob, JobPayload;
    KeyReads(event);
    PayloadIsReadBack(n, event);
    assert RowOf(s.rows, s.bodies, event);
    IndexOfIsFirst(s.rows, SOURCE, event);
  }

  lemma ReceiptIsRight(s: State, d: nat)
    requires Inv(s) && d in s.open
    ensures var r := s.open[d]; r.row < |s.rows| && s.rows[r.row].source == "asaas" && s.rows[r.row].external == r.event
  {
    assert RowOf(s.rows, s.bodies, s.open[d].event);
  }

  /** An open delivery's event is stored, and its receipt names the event's row. */
  lemma ReceiptNamesTheRow(s: State, d: nat)
    requires Reachable(s) && d in s.open
    ensures var r := s.open[d];
      r.row < |s.rows| && (s.rows[r.row].source, s.rows[r.row].external) == ("asaas", r.event)
  {
    ReachableIsConsistent(s);
    assert RowOf(s.rows, s.bodies, s.open[d].event);
  }

  /** Why no other receiver may use the key of an event: a row under it that is not the event's own keeps the
      event's job out for good, and the delivery is answered 200 all the same. */
  lemma ATakenKeyLosesTheEvent(s: State, d: nat, payload: string)
    requires Reachable(s) && d in s.open && s.open[d].event !in s.enqueued
    requires payload != JobPayload(s.open[d].row, s.open[d].event)
    ensures var event := s.open[d].event;
      var taken := s.(queue := Do(s.queue, EnqueueKeyed(None, "process_webhook", payload, Key(event))));
      var s' := DoStep(taken, Event.Enqueue(d, Ok));
      && s'.answers[d] == 200
      && forall j <- s'.queue.t.jobs :: !IsJobOf(s'.queue.t.jobs[j], s.open[d].row, event)
  {
    hide Do;
    var event := s.open[d].event;
    ReachableIsConsistent(s);
    assert JobOf(s.queue.t.jobs, s.rows, s.enqueued, event);
    KeyedInsert(s.queue.t, NewJob(None, "process_webhook", payload, s.queue.now, Key(event)));
    EnqueueInserts(s.queue, payload, event);
    var taken := s.(queue := Do(s.queue, EnqueueKeyed(None, "process_webhook", payload, Key(event))));
    assert s.queue.t.nextJob in taken.queue.t.jobs;
    assert HasKey(taken.queue.t, Key(event));
    EnqueueInserts(taken.queue, JobPayload(s.open[d].row, event), event);
  }

  // -------- What a run did for a delivery

  /** Some step stores delivery d, and it is one of event x. */
  predicate Delivers(es: seq<Event>, d: nat, x: string)
    decreases |es|
  {
    es != [] && ((es[0].Store? && es[0].d == d && GenerateEventID(es[0].p) == x) || Delivers(es[1..], d, x))
  }

  /** Some step enqueues a job for delivery d and takes effect. */
  predicate Enqueues(es: seq<Event>, d: nat)
    decreases |es|
  {
    es != [] && ((es[0].Enqueue? && es[0].d == d && es[0].outcome.Applied()) || Enqueues(es[1..], d))
  }

  /** The enqueueing of delivery d fails. */
  predicate Fails(es: seq<Event>, d: nat)
    decreases |es|
  {
    es != [] && ((es[0].Enqueue? && es[0].d == d && es[0].outcome.Err?) || Fails(es[1..], d))
  }

  /** Storing delivery d meets a conflict. */
  predicate MeetsConflict(es: seq<Event>, d: nat)
    decreases |es|
  {
    es != [] && ((es[0].Store? && es[0].d == d && es[0].result.Conflict?) || MeetsConflict(es[1..], d))
  }

  /** A delivery is stored once. */
  lemma {:induction false} StoredOnce(s: State, es: seq<Event>, s': State, d: nat)
    requires IsRun(s, es, s') && (d in s.open || d in s.answers)
    ensures !MeetsConflict(es, d) && forall x :: !Delivers(es, d, x)
    decreases |es|
  {
    hide Upsert, Do, GenerateEventID;
    if es != [] {
      StoredOnce(DoStep(s, es[0]), es[1..], s', d);
    }
  }

  /** Nothing happens to a delivery after its answer. */
  lemma {:induction false} AnsweredOnce(s: State, es: seq<Event>, s': State, d: nat)
    requires IsRun(s, es, s') && d in s.answers && d !in s.open
    ensures d in s'.answers && (Enqueues(es, d), Fails(es, d), s'.answers[d]) == (false, false, s.answers[d])
    decreases |es|
  {
    hide Upsert, Do, GenerateEventID;
    if es != [] {
      AnsweredOnce(DoStep(s, es[0]), es[1..], s', d);
    }
  }

  /** In what is left of a run, delivery d is one of event x. */
  predicate IsOf(s: State, es: seq<Event>, d: nat, x: string) {
    if d in s.open then s.open[d].event == x else Delivers(es, d, x)
  }

  /** Storing opens or answers a delivery, enqueueing answers it, and nothing else touches it. */
  lemma DeliveryStep(s: State, e: Event, d: nat)
    requires CanDo(s, e)
    ensures var s' := DoStep(s, e);
      if e.Store? && e.d == d then (if d in s'.open then s'.open[d].event == GenerateEventID(e.p) else d in s'.answers)
      else if e.Enqueue? && e.d == d then d in s'.answers && d !in s'.open
      else (d in s.open <==> d in s'.open) && (d in s.open ==> s'.open[d] == s.open[d])
  {
    hide Upsert, Do, GenerateEventID;
  }

  lemma EffectNext(s: State, es: seq<Event>, s': State, d: nat, x: string)
    requires es != [] && IsRun(s, es, s')
    ensures var e, rest := es[0], es[1..];
      (Enqueues(es, d) && IsOf(s, es, d, x)) <==>
      || (e.Enqueue? && e.d == d && e.outcome.Applied() && s.open[d].event == x)
      || (Enqueues(rest, d) && IsOf(DoStep(s, e), rest, d, x))
  {
    hide DoStep, GenerateEventID;
    var e, s1, rest := es[0], DoStep(s, es[0]), es[1..];
    DeliveryStep(s, e, d);
    if e.Store? && e.d == d {
      StoredOnce(s1, rest, s', d);
      if d in s1.open {
        assert IsOf(s, es, d, x) == Delivers(es, d, x) == (GenerateEventID(e.p) == x) == IsOf(s1, rest, d, x);
      } else {
        AnsweredOnce(s1, rest, s', d);
      }
    } else if e.Enqueue? && e.d == d {
      AnsweredOnce(s1, rest, s', d);
    }
  }

  /** The events with a job are those of the deliveries whose enqueueing took effect. */
  lemma {:induction false} EnqueuedAre(s: State, es: seq<Event>, s': State, x: string)
    requires IsRun(s, es, s')
    ensures x in s'.enqueued <==> x in s.enqueued || exists d :: Enqueues(es, d) && IsOf(s, es, d, x)
    decreases |es|
  {
    hide Upsert, Do, GenerateEventID, IsOf;
    if es != [] {
      var s1 := DoStep(s, es[0]);
      EnqueuedAre(s1, es[1..], s', x);
      forall d
        ensures (Enqueues(es, d) && IsOf(s, es, d, x)) <==>
          || (es[0].Enqueue? && es[0].d == d && es[0].outcome.Applied() && s.open[d].event == x)
          || (Enqueues(es[1..], d) && IsOf(s1, es[1..], d, x))
      {
        EffectNext(s, es, s', d, x);
      }
    }
  }

  /** A delivery answered 200 met a conflict, or its enqueueing was tried. */
  lemma {:induction false} HowAnswered(s: State, es: seq<Event>, s': State, d: nat)
    requires IsRun(s, es, s') && d !in s.answers && d in s'.answers && s'.answers[d] == 200
    ensures Enqueues(es, d) <==> !MeetsConflict(es, d) && !Fails(es, d)
    decreases |es|
  {
    hide Upsert, Do, GenerateEventID;
    var s1 := DoStep(s, es[0]);
    if d in s1.answers {
      StoredOnce(s1, es[1..], s', d);
      AnsweredOnce(s1, es[1..], s', d);
    } else {
      HowAnswered(s1, es[1..], s', d);
      if d in s1.open {
        StoredOnce(s1, es[1..], s', d);
      }
    }
  }

  /** The answer 200 does not say that there is a job.  Of a delivery answered 200 in any run: it enqueued
      nothing itself exactly if storing it met a conflict or its enqueueing failed; and its event is left
      without a job exactly if the enqueueing took effect for none of the event's deliveries. */
  lemma AnsweredWithoutAJobIff(cfg: Config, now: int, es: seq<Event>, s: State, d: nat, x: string)
    requires IsRun(Begin(cfg, now), es, s) && Delivers(es, d, x) && x != "" && d in s.answers && s.answers[d] == 200
    ensures !Enqueues(es, d) <==> MeetsConflict(es, d) || Fails(es, d)
    ensures (forall j <- s.queue.t.jobs :: s.queue.t.jobs[j].key != Key(x))
      <==> forall k :: Delivers(es, k, x) ==> !Enqueues(es, k)
  {
    HowAnswered(Begin(cfg, now), es, s, d);
    EnqueuedAre(Begin(cfg, now), es, s, x);
    assert Reachable(s);
    ReachableIsConsistent(s);
    assert JobOf(s.queue.t.jobs, s.rows, s.enqueued, x);
  }

  lemma NewJobReads(rows: seq<Row>, n: nat, event: string, body: string, now: int)
    requires n < |rows| && rows[n] == Row(SOURCE, event, body)
    ensures IsAbout(WebhookJob(n, event, now), rows, event, body)
  {
    hide ReadJob, JobPayload;
    KeyReads(event);
    PayloadIsReadBack(n, event);
  }

  /** A delivery alone: it is stored, and, if that opened it, enqueued. */
  function Delivered(s: State, d: nat, p: Webhooks.Payload, body: string, result: Stored, outcome: Outcome): State
    requires d !in s.open && d !in s.answers
  {
    var s1 := DoStep(s, Store(d, p, body, result));
    if d in s1.open then DoStep(s1, Event.Enqueue(d, outcome)) else s1
  }

  /** These steps do what the handler below does. */
  lemma StepsDeliver(s: State, d: nat, p: Webhooks.Payload, body: string, result: Stored, outcome: Outcome)
    requires d !in s.open && d !in s.answers
    ensures var event, s' := GenerateEventID(p), Delivered(s, d, p, body, result, outcome);
      var stores, enqueues := result.Done? || result.Unseen?, result.Done? && outcome.Applied();
      && d !in s'.open && d in s'.answers
      && s'.answers[d] == (if event == "" then 400 else if result.Unseen? || result.Failed? then 500 else 200)
      && s'.rows == (if event != "" && stores then Upsert(s.rows, Row("asaas", event, body)) else s.rows)
      && s'.queue.t == if event != "" && enqueues then
           AfterInsertKeyed(s.queue.t, WebhookJob(IndexOf(s.rows, "asaas", event), event, s.queue.now)) else s.queue.t
  {
    hide Upsert, GenerateEventID, JobPayload;
  }

  // -------- The handler as it is written

  class AsyncWebhookHandler {
    var rows: seq<Row>
    const database: Database

    constructor (database: Database)
      ensures rows == [] && this.database == database
    {
      this.rows, this.database := [], database;
    }

    method CreateWebhookWithIdempotency(source: string, external: string, payload: string) returns (row: nat)
      modifies this
      ensures rows == Upsert(old(rows), Row(source, external, payload)) && row == IndexOf(old(rows), source, external)
    {
      row := 0;
      while row < |rows| && !(rows[row].source == source && rows[row].external == external)
        invariant 0 <= row <= |rows| && IndexOf(rows, source, external) == row + IndexOf(rows[row..], source, external)
      {
        assert rows[row..][1..] == rows[row + 1..];
        row := row + 1;
      }
      if row < |rows| {
        rows := rows[row := Row(source, external, payload)];
      } else {
        rows := rows + [Row(source, external, payload)];
      }
    }

    /** The part of `ServeHTTP` after the payload is read. */
    method Receive(p: Webhooks.Payload, body: string, now: int, result: Stored, outcome: Outcome) returns (code: int)
      modifies this, database
      ensures GenerateEventID(p) == "" ==> code == 400
      ensures GenerateEventID(p) != "" ==> code == if result.Unseen? || result.Failed? then 500 else 200
      ensures var event, stores := GenerateEventID(p), result.Done? || result.Unseen?;
        rows == if event != "" && stores then Upsert(old(rows), Row(SOURCE, event, body)) else old(rows)
      ensures var event := GenerateEventID(p);
        database.Contents() ==
          if event != "" && result.Done? && outcome.Applied() then
            AfterInsertKeyed(old(database.Contents()), WebhookJob(IndexOf(old(rows), SOURCE, event), event, now))
          else old(database.Contents())
      ensures var event, id := GenerateEventID(p), old(database.nextJob);
        event != "" && result.Done? && outcome.Applied() && !HasKey(old(database.Contents()), Some("asaas:" + event)) ==>
          && id in database.jobs && IsAbout(database.jobs[id], rows, event, body)
          && database.jobs[id].status == Pending && database.jobs[id].runAt == now
    {
      hide IsAbout, JobPayload, ReadJob;
      var event := GenerateEventID(p);
      KeyReads(event);
      if event == "" {
        return 400;
      }
      if result.Conflict? {
        return 200;
      }
      if result.Failed? {
        return 500;
      }
      var row := CreateWebhookWithIdempotency(SOURCE, event, body);
      if result.Unseen? {
        return 500;
      }
      if outcome.Applied() {
        NewJobReads(rows, row, event, body, now);
        var _ := database.CreateJobWithIdempotency(None, "process_webhook", JobPayload(row, event), now, Key(event));
      }
      code := 200;
    }
  }
}
