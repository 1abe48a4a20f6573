/** Feature flags: a table of flags, and a manager that caches weak pointers to flags it has read. */
module FeatureFlags {
  import opened Prelude
  import opened Strings

  /** A row of `feature_flags` without its id and its times. */
  datatype Flag = Flag(name: string, description: string, enabled: bool, metadata: string, tenant: string)

  type Rows = map<nat, Flag>

  /** A weak pointer: to a flag as it was read, or to one that was collected. */
  datatype Entry = Live(id: nat, flag: Flag) | Dead

  type Cache = map<string, Entry>

  /** `next` is the AUTOINCREMENT counter. */
  datatype State = State(rows: Rows, next: nat, cache: Cache)

  const GLOBAL := "global"

  predicate Matches(f: Flag, name: string, tenant: string) {
    f.name == name && (f.tenant == tenant || f.tenant == GLOBAL)
  }

  /** What GetByName may answer. */
  ghost predicate IsAnswer(rows: Rows, name: string, tenant: string, found: Option<nat>) {
    match found
    case None => forall id <- rows :: !Matches(rows[id], name, tenant)
    case Some(id) => id in rows && Matches(rows[id], name, tenant)
  }

  /** What GetAll may answer: every row of the tenant and every global one, once. */
  ghost predicate IsListing(rows: Rows, tenant: string, ids: seq<nat>) {
    && NoDup(ids)
    && (forall id <- ids :: id in rows && (rows[id].tenant == tenant || rows[id].tenant == GLOBAL))
    && (forall id <- rows :: rows[id].tenant == tenant || rows[id].tenant == GLOBAL ==> id in ids)
  }

  /** The column `name` is UNIQUE. */
  predicate NameIsFree(rows: Rows, name: string, except: nat) {
    forall id <- rows :: rows[id].name == name ==> id == except
  }

  function Key(name: string, tenant: string): string {
    name + [':'] + tenant
  }

  datatype Op =
    | Lookup(name: string, tenant: string, found: Option<nat>, readOk: bool)
    | SetEnabled(name: string, tenant: string, enabled: bool, found: Option<nat>, readOk: bool, toggle: Toggling, insert: Outcome)
    | Create(input: Flag, insert: Outcome)
    | Update(id: nat, input: Flag, write: Outcome, rereadOk: bool)
    | Delete(id: nat, readOk: bool, write: Outcome)
    | Toggle(id: nat, toggle: Toggling)
    | Refresh(name: string, tenant: string, found: Option<nat>, readOk: bool)
    | RefreshAll(tenant: string, ids: seq<nat>, readOk: bool)
    | Collect(keys: set<string>)

  /** How the three statements of Repository.Toggle end. */
  datatype Toggling = Toggling(readOk: bool, write: Outcome, rereadOk: bool)

  function Cached(cache: Cache, key: string): Option<Flag> {
    if key in cache && cache[key].Live? then Some(cache[key].flag) else None
  }

  function Remember(s: State, key: string, found: Option<nat>): State {
    if found.Some? && found.value in s.rows then
      s.(cache := s.cache[key := Live(found.value, s.rows[found.value])])
    else s
  }

  function Forget(s: State, key: string): State {
    s.(cache := s.cache - {key})
  }

  function Inserted(s: State, f: Flag, o: Outcome): State {
    if o.Err? || !NameIsFree(s.rows, f.name, s.next) then s
    else s.(rows := s.rows[s.next := f], next := s.next + 1)
  }

  /** UPDATE of name, description, enabled and metadata; the tenant stays. */
  function Rewritten(s: State, id: nat, f: Flag, o: Outcome): State {
    if o.Err? || id !in s.rows || !NameIsFree(s.rows, f.name, id) then s
    else s.(rows := s.rows[id := f.(tenant := s.rows[id].tenant)])
  }

  /** Whether an insert or update is reported done. */
  predicate Reported(o: Outcome, free: bool) {
    o.Ok? && free
  }

  /** Repository.Toggle and what the manager invalidates when it reports no error. */
  function Toggled(s: State, id: nat, key: string, t: Toggling): State
    requires id in s.rows
  {
    if !t.readOk then s else
      var f := s.rows[id];
      var s' := if t.write.Err? then s else s.(rows := s.rows[id := f.(enabled := !f.enabled)]);
      if t.write.Ok? && t.rereadOk then Forget(s', key) else s'
  }

  function Filled(rows: Rows, ids: seq<nat>): Cache
    requires forall id <- ids :: id in rows
  {
    if ids == [] then map[] else
      var id := ids[|ids| - 1];
      Filled(rows, ids[..|ids| - 1])[Key(rows[id].name, rows[id].tenant) := Live(id, rows[id])]
  }

  ghost predicate CanDo(s: State, op: Op) {
    match op
    case Lookup(name, tenant, found, _) => IsAnswer(s.rows, name, tenant, found)
    case SetEnabled(name, tenant, _, found, _, _, _) => IsAnswer(s.rows, name, tenant, found)
    case Toggle(id, t) => id in s.rows
    case Refresh(name, tenant, found, _) => IsAnswer(s.rows, name, tenant, found)
    case RefreshAll(tenant, ids, _) => IsListing(s.rows, tenant, ids)
    case _ => true
  }

  ghost function Do(s: State, op: Op): State
    requires CanDo(s, op)
  {
    match op
    case Lookup(name, tenant, found, readOk) =>
      var key := Key(name, tenant);
      if Cached(s.cache, key).Some? || !readOk then s else Remember(s, key, found)
    case SetEnabled(name, tenant, enabled, found, readOk, toggle, insert) =>
      if !readOk then s
      else if found.None? then Inserted(s, Flag(name, "", enabled, "", tenant), insert)
      else if s.rows[found.value].enabled == enabled then s
      else Toggled(s, found.value, Key(name, tenant), toggle)
    case Create(f, o) =>
      var s' := Inserted(s, f, o);
      if Reported(o, NameIsFree(s.rows, f.name, s.next)) then Forget(s', Key(f.name, f.tenant)) else s'
    case Update(id, f, o, rereadOk) =>
      var s' := Rewritten(s, id, f, o);
      if Reported(o, id !in s.rows || NameIsFree(s.rows, f.name, id)) && rereadOk then Forget(s', Key(f.name, f.tenant)) else s'
    case Delete(id, readOk, o) =>
      if !readOk then s else
        var s' := if id in s.rows then Forget(s, Key(s.rows[id].name, s.rows[id].tenant)) else s;
        if o.Err? then s' else s'.(rows := s'.rows - {id})
    case Toggle(id, t) => Toggled(s, id, Key(s.rows[id].name, s.rows[id].tenant), t)
    case Refresh(name, tenant, found, readOk) =>
      if !readOk then s
      else if found.None? then Forget(s, Key(name, tenant))
      else Remember(s, Key(name, tenant), found)
    case RefreshAll(tenant, ids, readOk) => if readOk then s.(cache := Filled(s.rows, ids)) else s
    case Collect(keys) => s.(cache := map k <- s.cache :: if k in keys then Dead else s.cache[k])
  }

  // -------- Coherence

  /** A key under which a flag may stand. */
  predicate Fits(key: string, f: Flag) {
    var parts := SplitOnce(key, ':');
    |parts| == 2 && Matches(f, parts[0], parts[1])
  }

  /** Every live entry is a row as it is now, under a key it answers to. */
  predicate Coherent(rows: Rows, cache: Cache) {
    forall k <- cache :: cache[k].Live? ==>
      cache[k].id in rows && rows[cache[k].id] == cache[k].flag && Fits(k, cache[k].flag)
  }

  predicate UniqueNames(rows: Rows) {
    forall i, j :: i in rows && j in rows && rows[i].name == rows[j].name ==> i == j
  }

  lemma KeyFitsIff(name: string, tenant: string, f: Flag)
    requires ':' !in name
    ensures Fits(Key(name, tenant), f) <==> Matches(f, name, tenant)
  {
    SplitOnceFindsTheFirst(name, tenant, ':');
  }

  /** A flag that is not global fits its own key alone. */
  lemma OnlyItsOwnKeyFits(key: string, f: Flag)
    requires f.tenant != GLOBAL && Fits(key, f)
    ensures key == Key(f.name, f.tenant)
  {
    SplitOnceJoins(key, ':');
  }

  /** With coherence, the cached answer is the answer of the table, whichever of them is asked. */
  lemma IsEnabledAgrees(s: State, name: string, tenant: string, found: Option<nat>)
    requires Coherent(s.rows, s.cache) && UniqueNames(s.rows) && ':' !in name
    requires IsAnswer(s.rows, name, tenant, found)
    ensures var cached := Cached(s.cache, Key(name, tenant));
      cached.Some? ==> found.Some? && cached.value == s.rows[found.value]
  {
    var key := Key(name, tenant);
    if Cached(s.cache, key).Some? {
      KeyFitsIff(name, tenant, s.cache[key].flag);
      assert Matches(s.rows[s.cache[key].id], name, tenant);
    }
  }

  /** No live entry for the row stands under another key. */
  predicate OnlyUnder(cache: Cache, id: nat, keys: set<string>) {
    forall k <- cache :: cache[k].Live? && cache[k].id == id ==> k in keys
  }

  /** Changing or removing a row and then forgetting some keys keeps a coherent cache coherent exactly if
      no other key has a live entry for that row. */
  lemma ChangeKeepsCoherenceIff(rows: Rows, cache: Cache, id: nat, rows': Rows, forgotten: set<string>)
    requires Coherent(rows, cache) && id in rows
    requires rows' - {id} == rows - {id} && (id in rows' ==> rows'[id] != rows[id])
    ensures Coherent(rows', cache - forgotten) <==> OnlyUnder(cache, id, forgotten)
  {
    assert forall j :: j in rows && j != id ==> j in rows - {id} && rows[j] == (rows - {id})[j];
    assert forall j :: j in rows' && j != id ==> j in rows' - {id} && rows'[j] == (rows' - {id})[j];
    assert forall j :: j in rows' - {id} ==> j in rows';
    assert forall j :: j in rows && j != id ==> j in rows' && rows'[j] == rows[j];
    var left := cache - forgotten;
    assert forall k <- left :: k in cache && left[k] == cache[k] && k !in forgotten;
    assert forall k <- cache :: k !in forgotten ==> k in left;
    if k :| k in cache && cache[k].Live? && cache[k].id == id && k !in forgotten {
      assert left[k].Live? && !(id in rows' && rows'[id] == left[k].flag);
    }
  }

  // -------- When an operation keeps the cache coherent

  /** The key a toggle forgets. */
  predicate IsCoveredToggle(s: State, id: nat, key: string, t: Toggling) {
    !t.readOk || t.write.Err? || OnlyUnder(s.cache, id, if t.write.Ok? && t.rereadOk then {key} else {})
  }

  /** Before an operation: every live entry for the row it will change stands under a key it will forget, and
      what it will put into the cache has no colon in its name. */
  ghost predicate Covered(s: State, op: Op)
    requires CanDo(s, op)
  {
    match op
    case Lookup(name, tenant, found, readOk) =>
      Cached(s.cache, Key(name, tenant)).Some? || !readOk || found.None? || ':' !in name
    case Refresh(name, _, found, readOk) => !readOk || found.None? || ':' !in name
    case RefreshAll(_, ids, readOk) => readOk ==> forall id <- ids :: ':' !in s.rows[id].name
    case SetEnabled(name, tenant, enabled, found, readOk, toggle, _) =>
      || !readOk || found.None? || s.rows[found.value].enabled == enabled
      || IsCoveredToggle(s, found.value, Key(name, tenant), toggle)
    case Toggle(id, t) => IsCoveredToggle(s, id, Key(s.rows[id].name, s.rows[id].tenant), t)
    case Update(id, f, o, rereadOk) =>
      || o.Err? || id !in s.rows || !NameIsFree(s.rows, f.name, id) || f.(tenant := s.rows[id].tenant) == s.rows[id]
      || OnlyUnder(s.cache, id, if o.Ok? && rereadOk then {Key(f.name, f.tenant)} else {})
    case Delete(id, readOk, o) =>
      !readOk || id !in s.rows || o.Err? || OnlyUnder(s.cache, id, {Key(s.rows[id].name, s.rows[id].tenant)})
    case _ => true
  }

  lemma KeyFitsOnlyWithoutColon(name: string, tenant: string, f: Flag)
    requires Matches(f, name, tenant)
    ensures Fits(Key(name, tenant), f) <==> ':' !in name
  {
    if ':' !in name {
      KeyFitsIff(name, tenant, f);
    } else {
      FirstOfSplitOnce(Key(name, tenant), ':');
    }
  }

  /** A row put under the key it was asked for by. */
  lemma RememberKeepsIff(s: State, name: string, tenant: string, found: Option<nat>)
    requires Coherent(s.rows, s.cache) && IsAnswer(s.rows, name, tenant, found)
    ensures Coherent(s.rows, Remember(s, Key(name, tenant), found).cache) <==> found.None? || ':' !in name
  {
    if found.Some? {
      var key, s' := Key(name, tenant), Remember(s, Key(name, tenant), found);
      KeyFitsOnlyWithoutColon(name, tenant, s.rows[found.value]);
      assert s'.cache[key].Live? && forall k <- s.cache :: k != key ==> s'.cache[k] == s.cache[k];
    }
  }

  lemma ToggledKeepsIff(s: State, id: nat, key: string, t: Toggling)
    requires Coherent(s.rows, s.cache) && id in s.rows
    ensures var s' := Toggled(s, id, key, t); Coherent(s'.rows, s'.cache) <==> IsCoveredToggle(s, id, key, t)
  {
    if t.readOk && !t.write.Err? {
      var s' := Toggled(s, id, key, t);
      var forgotten := if t.write.Ok? && t.rereadOk then {key} else {};
      assert s'.rows - {id} == s.rows - {id} && s'.cache == s.cache - forgotten;
      ChangeKeepsCoherenceIff(s.rows, s.cache, id, s'.rows, forgotten);
    } else if t.readOk && t.write.Ok? {
      ForgettingKeeps(s.rows, s.cache, key);
    }
  }

  lemma ForgettingKeeps(rows: Rows, cache: Cache, key: string)
    requires Coherent(rows, cache)
    ensures Coherent(rows, cache - {key})
  {
  }

  lemma InsertedKeeps(s: State, f: Flag, o: Outcome)
    requires Coherent(s.rows, s.cache) && Sound(s.rows, s.next)
    ensures var s' := Inserted(s, f, o); Coherent(s'.rows, s'.cache)
  {
  }

  lemma UpdateKeepsIff(s: State, op: Op)
    requires Coherent(s.rows, s.cache) && op.Update?
    ensures Coherent(Do(s, op).rows, Do(s, op).cache) <==> Covered(s, op)
  {
    var id, f := op.id, op.input;
    var s1 := Rewritten(s, id, f, op.write);
    var forgotten := if Reported(op.write, id !in s.rows || NameIsFree(s.rows, f.name, id)) && op.rereadOk
                     then {Key(f.name, f.tenant)} else {};
    assert Do(s, op).rows == s1.rows && Do(s, op).cache == s.cache - forgotten;
    if id in s.rows && s1.rows != s.rows {
      assert s1.rows - {id} == s.rows - {id};
      ChangeKeepsCoherenceIff(s.rows, s.cache, id, s1.rows, forgotten);
    } else {
      ForgettingKeeps(s.rows, s.cache, Key(f.name, f.tenant));
    }
  }

  lemma DeleteKeepsIff(s: State, op: Op)
    requires Coherent(s.rows, s.cache) && op.Delete?
    ensures Coherent(Do(s, op).rows, Do(s, op).cache) <==> Covered(s, op)
  {
    if op.readOk && op.id in s.rows {
      var key := Key(s.rows[op.id].name, s.rows[op.id].tenant);
      ForgettingKeeps(s.rows, s.cache, key);
      assert (s.rows - {op.id}) - {op.id} == s.rows - {op.id};
      ChangeKeepsCoherenceIff(s.rows, s.cache, op.id, s.rows - {op.id}, {key});
    } else {
      assert s.rows - {op.id} == s.rows || op.id in s.rows;
    }
  }

  lemma {:induction false} FilledIsCoherent(rows: Rows, ids: seq<nat>)
    requires forall id <- ids :: id in rows && ':' !in rows[id].name
    ensures Coherent(rows, Filled(rows, ids))
  {
    if ids != [] {
      var id := ids[|ids| - 1];
      FilledIsCoherent(rows, ids[..|ids| - 1]);
      KeyFitsIff(rows[id].name, rows[id].tenant, rows[id]);
    }
  }

  /** Before any operation it can be told whether the cache will be coherent after it: exactly if the
      operation is covered.  (A full refresh under colliding keys may be lucky.) */
  lemma OperationKeepsCoherenceIff(s: State, op: Op)
    requires Coherent(s.rows, s.cache) && Sound(s.rows, s.next) && CanDo(s, op)
    ensures Covered(s, op) ==> Coherent(Do(s, op).rows, Do(s, op).cache)
    ensures !op.RefreshAll? && !Covered(s, op) ==> !Coherent(Do(s, op).rows, Do(s, op).cache)
  {
    match op {
      case Lookup(name, tenant, found, _) => RememberKeepsIff(s, name, tenant, found);
      case Refresh(name, tenant, found, _) =>
        RememberKeepsIff(s, name, tenant, found);
        ForgettingKeeps(s.rows, s.cache, Key(name, tenant));
      case RefreshAll(_, ids, _) =>
        if Covered(s, op) && op.readOk {
          FilledIsCoherent(s.rows, ids);
        }
      case SetEnabled(name, tenant, enabled, found, _, toggle, insert) =>
        InsertedKeeps(s, Flag(name, "", enabled, "", tenant), insert);
        if found.Some? {
          ToggledKeepsIff(s, found.value, Key(name, tenant), toggle);
        }
      case Toggle(id, t) => ToggledKeepsIff(s, id, Key(s.rows[id].name, s.rows[id].tenant), t);
      case Create(f, o) =>
        InsertedKeeps(s, f, o);
        ForgettingKeeps(Inserted(s, f, o).rows, s.cache, Key(f.name, f.tenant));
      case Update(_, _, _, _) => UpdateKeepsIff(s, op);
      case Delete(_, _, _) => DeleteKeepsIff(s, op);
      case Collect(_) =>
    }
  }

  // -------- Whole sequences of operations

  /** What the schema keeps: unique names, and ids below the counter. */
  predicate Sound(rows: Rows, next: nat) {
    UniqueNames(rows) && forall id <- rows :: id < next
  }

  lemma InsertedIsSound(s: State, f: Flag, o: Outcome)
    requires Sound(s.rows, s.next)
    ensures Sound(Inserted(s, f, o).rows, Inserted(s, f, o).next)
  {
  }

  lemma RewrittenIsSound(s: State, id: nat, f: Flag, o: Outcome)
    requires Sound(s.rows, s.next)
    ensures Sound(Rewritten(s, id, f, o).rows, s.next)
  {
  }

  lemma ToggledIsSound(s: State, id: nat, key: string, t: Toggling)
    requires Sound(s.rows, s.next) && id in s.rows
    ensures Sound(Toggled(s, id, key, t).rows, s.next)
  {
  }

  lemma DeletedIsSound(rows: Rows, next: nat, id: nat)
    requires Sound(rows, next)
    ensures Sound(rows - {id}, next)
  {
  }

  lemma OperationKeepsSoundness(s: State, op: Op)
    requires Sound(s.rows, s.next) && CanDo(s, op)
    ensures Sound(Do(s, op).rows, Do(s, op).next)
  {
    hide Sound, Inserted;
    match op {
      case SetEnabled(name, tenant, enabled, found, _, toggle, insert) =>
        InsertedIsSound(s, Flag(name, "", enabled, "", tenant), insert);
        if found.Some? {
          ToggledIsSound(s, found.value, Key(name, tenant), toggle);
        }
      case Create(f, o) => InsertedIsSound(s, f, o);
      case Update(id, f, o, _) => RewrittenIsSound(s, id, f, o);
      case Delete(id, _, _) => DeletedIsSound(s.rows, s.next, id);
      case Toggle(id, t) => ToggledIsSound(s, id, Key(s.rows[id].name, s.rows[id].tenant), t);
      case _ =>
    }
  }

  /** Enable and Disable with every statement done: the table then answers as asked exactly if it had the flag,
      or no row of any tenant had its name. */
  lemma SetEnabledTakesEffectIff(s: State, name: string, tenant: string, enabled: bool, found: Option<nat>,
                                 toggle: Toggling, insert: Outcome, answer: Option<nat>)
    requires Sound(s.rows, s.next) && IsAnswer(s.rows, name, tenant, found)
    requires toggle.readOk && !toggle.write.Err? && !insert.Err?
    requires IsAnswer(Do(s, SetEnabled(name, tenant, enabled, found, true, toggle, insert)).rows, name, tenant, answer)
    ensures var rows' := Do(s, SetEnabled(name, tenant, enabled, found, true, toggle, insert)).rows;
      answer.Some? && rows'[answer.value].enabled == enabled <==> found.Some? || forall id <- s.rows :: s.rows[id].name != name
  {
    var s' := Do(s, SetEnabled(name, tenant, enabled, found, true, toggle, insert));
    OperationKeepsSoundness(s, SetEnabled(name, tenant, enabled, found, true, toggle, insert));
    if found.Some? {
      assert Matches(s'.rows[found.value], name, tenant);
    } else if forall id <- s.rows :: s.rows[id].name != name {
      assert Matches(s'.rows[s.next], name, tenant);
    } else {
      assert s' == s;
    }
  }

  ghost predicate IsRun(s: State, ops: seq<Op>, s': State)
    decreases |ops|
  {
    if ops == [] then s' == s
    else CanDo(s, ops[0]) && Covered(s, ops[0]) && IsRun(Do(s, ops[0]), ops[1..], s')
  }

  lemma {:induction false} RunKeepsCoherence(s: State, ops: seq<Op>)
    requires Sound(s.rows, s.next) && Coherent(s.rows, s.cache)
    ensures forall s' :: IsRun(s, ops, s') ==> Sound(s'.rows, s'.next) && Coherent(s'.rows, s'.cache)
    decreases |ops|
  {
    hide Do, Covered, Sound, Coherent;
    if ops != [] && CanDo(s, ops[0]) && Covered(s, ops[0]) {
      OperationKeepsSoundness(s, ops[0]);
      OperationKeepsCoherenceIff(s, ops[0]);
      RunKeepsCoherence(Do(s, ops[0]), ops[1..]);
    }
  }

  /** What IsEnabled returns when its query, if it makes one, answers `found`. */
  predicate Enabled(s: State, name: string, tenant: string, found: Option<nat>) {
    var cached := Cached(s.cache, Key(name, tenant));
    if cached.Some? then cached.value.enabled
    else found.Some? && found.value in s.rows && s.rows[found.value].enabled
  }

  /** From any table and an empty cache, after any covered operations and any collections, the manager says
      of every flag what the table says; global flags are not excluded. */
  lemma ManagerAgreesWithRepository(rows: Rows, next: nat, ops: seq<Op>, s: State,
                                    name: string, tenant: string, found: Option<nat>)
    requires Sound(rows, next) && IsRun(State(rows, next, map[]), ops, s)
    requires ':' !in name && IsAnswer(s.rows, name, tenant, found)
    ensures Enabled(s, name, tenant, found) == (found.Some? && s.rows[found.value].enabled)
  {
    RunKeepsCoherence(State(rows, next, map[]), ops);
    IsEnabledAgrees(s, name, tenant, found);
  }

  // -------- Flags of tenants

  /** An operation with no colon in a name, no global flag, an update that keeps name and tenant, and no change
      of a row that is reported failed or cannot be read back. */
  ghost predicate Proper(s: State, op: Op) {
    && CanDo(s, op)
    && match op
       case Lookup(name, _, _, _) => ':' !in name
       case SetEnabled(name, tenant, _, _, _, toggle, _) => ':' !in name && tenant != GLOBAL && IsFaithful(toggle)
       case Create(f, _) => ':' !in f.name && f.tenant != GLOBAL
       case Update(id, f, o, rereadOk) =>
         && (id in s.rows ==> f.name == s.rows[id].name && f.tenant == s.rows[id].tenant)
         && (o.Err? || (o.Ok? && rereadOk))
       case Toggle(_, t) => IsFaithful(t)
       case Refresh(name, _, _, _) => ':' !in name
       case _ => true
  }

  predicate IsFaithful(t: Toggling) {
    !t.readOk || t.write.Err? || (t.write.Ok? && t.rereadOk)
  }

  predicate OfTenants(rows: Rows) {
    forall id <- rows :: ':' !in rows[id].name && rows[id].tenant != GLOBAL
  }

  /** The entries for a tenant's flag stand under its own key. */
  lemma TenantEntriesStandAlone(rows: Rows, cache: Cache, id: nat)
    requires Coherent(rows, cache) && id in rows && rows[id].tenant != GLOBAL
    ensures OnlyUnder(cache, id, {Key(rows[id].name, rows[id].tenant)})
  {
    forall k <- cache | cache[k].Live? && cache[k].id == id
      ensures k == Key(rows[id].name, rows[id].tenant)
    {
      OnlyItsOwnKeyFits(k, rows[id]);
    }
  }

  /** On tables without global flags every proper operation is covered, and keeps them so. */
  lemma ProperIsCovered(s: State)
    requires Coherent(s.rows, s.cache) && OfTenants(s.rows)
    ensures forall op :: Proper(s, op) ==> Covered(s, op) && OfTenants(Do(s, op).rows)
  {
    forall op | Proper(s, op)
      ensures Covered(s, op) && OfTenants(Do(s, op).rows)
    {
      match op {
        case Toggle(id, _) => TenantEntriesStandAlone(s.rows, s.cache, id);
        case SetEnabled(_, _, _, found, _, _, _) =>
          if found.Some? {
            TenantEntriesStandAlone(s.rows, s.cache, found.value);
          }
        case Update(id, _, _, _) =>
          if id in s.rows {
            TenantEntriesStandAlone(s.rows, s.cache, id);
          }
        case Delete(id, _, _) =>
          if id in s.rows {
            TenantEntriesStandAlone(s.rows, s.cache, id);
          }
        case _ =>
      }
    }
  }

  ghost predicate IsProperRun(s: State, ops: seq<Op>, s': State)
    decreases |ops|
  {
    if ops == [] then s' == s else Proper(s, ops[0]) && IsProperRun(Do(s, ops[0]), ops[1..], s')
  }

  /** So what holds after covered operations holds after any proper ones on a table of tenant flags. */
  lemma {:induction false} ProperRunsAreCovered(s: State, ops: seq<Op>)
    requires Sound(s.rows, s.next) && Coherent(s.rows, s.cache) && OfTenants(s.rows)
    ensures forall s' :: IsProperRun(s, ops, s') ==> IsRun(s, ops, s')
    decreases |ops|
  {
    hide Do, Covered, Sound, Coherent, OfTenants;
    if ops != [] && Proper(s, ops[0]) {
      ProperIsCovered(s);
      OperationKeepsSoundness(s, ops[0]);
      OperationKeepsCoherenceIff(s, ops[0]);
      ProperRunsAreCovered(Do(s, ops[0]), ops[1..]);
    }
  }

  /** A global flag that a tenant looked up keeps its old answer for that tenant after it is toggled. */
  lemma GlobalFlagGoesStale(name: string, tenant: string)
    requires ':' !in name && tenant != GLOBAL
    ensures var s := State(map[0 := Flag(name, "", false, "", GLOBAL)], 1, map[]);
      && CanDo(s, Lookup(name, tenant, Some(0), true))
      && var s1 := Do(s, Lookup(name, tenant, Some(0), true));
      && CanDo(s1, Toggle(0, Toggling(true, Ok, true)))
      && var s2 := Do(s1, Toggle(0, Toggling(true, Ok, true)));
      && s2.rows[0].enabled && !Enabled(s2, name, tenant, Some(0))
  {
    var own, k := Key(name, GLOBAL), Key(name, tenant);
    SplitOnceFindsTheFirst(name, GLOBAL, ':');
    SplitOnceFindsTheFirst(name, tenant, ':');
    assert [name, tenant][1] != [name, GLOBAL][1];
    assert k != own;
  }

  lemma SomeAnswer(rows: Rows, name: string, tenant: string)
    ensures exists found :: IsAnswer(rows, name, tenant, found)
  {
    if id :| id in rows && Matches(rows[id], name, tenant) {
      assert IsAnswer(rows, name, tenant, Some(id));
    } else {
      assert IsAnswer(rows, name, tenant, None);
    }
  }

  // -------- The repository and the manager, updating their tables in place

  class Repository {
    var rows: Rows
    var next: nat

    constructor ()
      ensures rows == map[] && next == 0
    {
      rows, next := map[], 0;
    }

    method GetByName(name: string, tenant: string) returns (found: Option<nat>)
      ensures IsAnswer(rows, name, tenant, found)
      ensures found.Some? <==>
        exists id :: id in rows && rows[id].name == name && (rows[id].tenant == tenant || rows[id].tenant == "global")
    {
      var ids := set id | id in rows && Matches(rows[id], name, tenant);
      if ids == {} {
        assert forall id <- rows :: Matches(rows[id], name, tenant) ==> id in ids;
        return None;
      }
      var id :| id in ids;
      found := Some(id);
    }

    method GetAll(tenant: string) returns (ids: seq<nat>)
      ensures NoDup(ids)
      ensures forall id :: id in ids <==> id in rows && (rows[id].tenant == tenant || rows[id].tenant == "global")
    {
      ids := [];
      var rest := set id | id in rows && (rows[id].tenant == tenant || rows[id].tenant == GLOBAL);
      ghost var all := rest;
      while rest != {}
        invariant NoDup(ids) && rest <= all
        invariant forall id :: id in ids <==> id in all && id !in rest
        decreases |rest|
      {
        var id :| id in rest;
        ids := ids + [id];
        rest := rest - {id};
      }
    }

    method Create(f: Flag, o: Outcome) returns (ok: bool)
      modifies this
      ensures State(rows, next, map[]) == Inserted(State(old(rows), old(next), map[]), f, o)
      ensures ok == Reported(o, NameIsFree(old(rows), f.name, old(next)))
    {
      ok := Reported(o, NameIsFree(rows, f.name, next));
      if !o.Err? && NameIsFree(rows, f.name, next) {
        rows, next := rows[next := f], next + 1;
      }
    }

    method Update(id: nat, f: Flag, o: Outcome, rereadOk: bool) returns (ok: bool)
      modifies this`rows
      ensures State(rows, next, map[]) == Rewritten(State(old(rows), next, map[]), id, f, o)
      ensures ok == (Reported(o, id !in old(rows) || NameIsFree(old(rows), f.name, id)) && rereadOk)
    {
      var free := id !in rows || NameIsFree(rows, f.name, id);
      if !o.Err? && free && id in rows {
        rows := rows[id := f.(tenant := rows[id].tenant)];
      }
      ok := Reported(o, free) && rereadOk;
    }

    /** The flag of an id that is not there is nil, and its field is read all the same. */
    method Toggle(id: nat, t: Toggling) returns (ok: bool, panicked: bool)
      modifies this`rows
      ensures panicked == (t.readOk && id !in old(rows))
      ensures rows == if id in old(rows) && t.readOk && !t.write.Err?
        then old(rows)[id := old(rows)[id].(enabled := !old(rows)[id].enabled)] else old(rows)
      ensures ok == (id in old(rows) && t.readOk && t.write.Ok? && t.rereadOk)
    {
      if !t.readOk {
        return false, false;
      }
      if id !in rows {
        return false, true;
      }
      var flag := rows[id];
      if !t.write.Err? {
        rows := rows[id := flag.(enabled := !flag.enabled)];
      }
      ok, panicked := t.write.Ok? && t.rereadOk, false;
    }

    method Delete(id: nat, o: Outcome)
      modifies this`rows
      ensures rows == if o.Err? then old(rows) else old(rows) - {id}
    {
      if !o.Err? {
        rows := rows - {id};
      }
    }
  }

  class Manager {
    const repo: Repository
    var cache: Cache

    ghost function Model(): State
      reads this, repo
    {
      State(repo.rows, repo.next, cache)
    }

    constructor (repo: Repository)
      ensures this.repo == repo && cache == map[]
    {
      this.repo, cache := repo, map[];
    }

    /** GetMetadata fills the cache in the same way and differs in what it returns. */
    method IsEnabled(name: string, tenant: string, readOk: bool) returns (enabled: bool, ghost found: Option<nat>)
      modifies this`cache
      ensures CanDo(old(Model()), Lookup(name, tenant, found, readOk))
      ensures Model() == Do(old(Model()), Lookup(name, tenant, found, readOk))
      ensures readOk || Cached(old(cache), Key(name, tenant)).Some? ==> enabled == Enabled(old(Model()), name, tenant, found)
      ensures !readOk && Cached(old(cache), Key(name, tenant)).None? ==> !enabled
    {
      var key := Key(name, tenant);
      if key in cache && cache[key].Live? {
        SomeAnswer(repo.rows, name, tenant);
        found :| IsAnswer(repo.rows, name, tenant, found);
        return cache[key].flag.enabled, found;
      }
      var flag := repo.GetByName(name, tenant);
      found := flag;
      if !readOk || flag.None? {
        return false, found;
      }
      cache := cache[key := Live(flag.value, repo.rows[flag.value])];
      enabled := repo.rows[flag.value].enabled;
    }

    /** Enable and Disable. */
    method SetEnabled(name: string, tenant: string, enabled: bool, readOk: bool, toggle: Toggling, insert: Outcome)
      returns (ghost found: Option<nat>)
      modifies this`cache, repo
      ensures CanDo(old(Model()), Op.SetEnabled(name, tenant, enabled, found, readOk, toggle, insert))
      ensures Model() == Do(old(Model()), Op.SetEnabled(name, tenant, enabled, found, readOk, toggle, insert))
    {
      var flag := repo.GetByName(name, tenant);
      found := flag;
      if !readOk {
        return;
      }
      if flag.None? {
        var _ := repo.Create(Flag(name, "", enabled, "", tenant), insert);
      } else if repo.rows[flag.value].enabled != enabled {
        var ok, _ := repo.Toggle(flag.value, toggle);
        if ok {
          cache := cache - {Key(name, tenant)};
        }
      }
    }

    method Create(f: Flag, o: Outcome)
      modifies this`cache, repo
      ensures Model() == Do(old(Model()), Op.Create(f, o))
    {
      var ok := repo.Create(f, o);
      if ok {
        cache := cache - {Key(f.name, f.tenant)};
      }
    }

    method Update(id: nat, f: Flag, o: Outcome, rereadOk: bool)
      modifies this`cache, repo`rows
      ensures Model() == Do(old(Model()), Op.Update(id, f, o, rereadOk))
    {
      var ok := repo.Update(id, f, o, rereadOk);
      if ok {
        cache := cache - {Key(f.name, f.tenant)};
      }
    }

    method Delete(id: nat, readOk: bool, o: Outcome)
      modifies this`cache, repo`rows
      ensures Model() == Do(old(Model()), Op.Delete(id, readOk, o))
    {
      if !readOk {
        return;
      }
      if id in repo.rows {
        cache := cache - {Key(repo.rows[id].name, repo.rows[id].tenant)};
      }
      repo.Delete(id, o);
    }

    /** Toggling an id that is not there dereferences a nil flag. */
    method Toggle(id: nat, t: Toggling) returns (panicked: bool)
      modifies this`cache, repo`rows
      ensures panicked == (t.readOk && id !in old(repo.rows))
      ensures Model() == if id in old(repo.rows) then Do(old(Model()), Op.Toggle(id, t)) else old(Model())
    {
      var ok;
      ok, panicked := repo.Toggle(id, t);
      if ok {
        cache := cache - {Key(repo.rows[id].name, repo.rows[id].tenant)};
      }
    }

    method Refresh(name: string, tenant: string, readOk: bool) returns (ghost found: Option<nat>)
      modifies this`cache
      ensures CanDo(old(Model()), Op.Refresh(name, tenant, found, readOk))
      ensures Model() == Do(old(Model()), Op.Refresh(name, tenant, found, readOk))
    {
      var flag := repo.GetByName(name, tenant);
      found := flag;
      if !readOk {
        return;
      }
      if flag.None? {
        cache := cache - {Key(name, tenant)};
      } else {
        cache := cache[Key(name, tenant) := Live(flag.value, repo.rows[flag.value])];
      }
    }

    method RefreshAll(tenant: string, readOk: bool) returns (ghost ids: seq<nat>)
      modifies this`cache
      ensures CanDo(old(Model()), Op.RefreshAll(tenant, ids, readOk)) && NoDup(ids)
      ensures forall id :: id in ids <==>
        id in repo.rows && (repo.rows[id].tenant == tenant || repo.rows[id].tenant == "global")
      ensures Model() == Do(old(Model()), Op.RefreshAll(tenant, ids, readOk))
    {
      var flags := repo.GetAll(tenant);
      ids := flags;
      if !readOk {
        return;
      }
      cache := map[];
      for i := 0 to |flags|
        invariant cache == Filled(repo.rows, flags[..i])
      {
        assert flags[..i + 1][..i] == flags[..i];
        var flag := repo.rows[flags[i]];
        cache := cache[Key(flag.name, flag.tenant) := Live(flags[i], flag)];
      }
      assert flags[..|flags|] == flags;
    }

    /** The garbage collector takes any flags it likes. */
    method Collect(keys: set<string>)
      modifies this`cache
      ensures Model() == Do(old(Model()), Op.Collect(keys))
    {
      cache := map k <- cache :: if k in keys then Dead else cache[k];
    }
  }
}
