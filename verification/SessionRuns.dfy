/** Every interleaving of sign-ins, sign-outs, wipes and the late answers of calls begun before them. An
    operation that holds the gate reaches its `mu` section and each of its store writes one step at a
    time; sections that take `mu` alone come in between. A gated operation's own reads of the store are
    one with its `mu` section, since what it reads is written under the gate only. */
module SessionRuns {
  import opened Support
  import opened Sessions

  datatype Holder = Holder(op: Gated, entered: bool, puts: seq<Put>)

  /** When the store was last wiped, and last cleared of a session's keys, with the session that began
      then; read by no step. */
  datatype Marks = Marks(wipedAt: int, wipedSession: nat, clearedAt: int, clearedSession: nat)

  datatype World = World(m: Memory, store: Store, gate: Option<Holder>, scopes: set<Scope>, now: int, marks: Marks)

  /** Init loads the session the store holds. */
  function Start(stored: map<Key, nat>): World {
    var store := map k | k in stored :: Entry(stored[k], Scope(None, 0, 0, 0));
    World(Memory(Stored(store, License), Stored(store, Identity), None, None, 0, 0), store, None, {}, 1, Marks(-1, 0, -1, 0))
  }

  datatype Event =
    | Capture
    | TakeGate(op: Gated)
    | Enter
    | PutNext
    | LeaveGate
    | BeginLogin(scope: Scope, license: Option<nat>, ident: nat)
    | ServersArrive(scope: Scope)
    | PrepareReturns(scope: Scope, ident: nat)
    | PutUnchecked(key: Key, content: Option<nat>)

  /** A gated operation uses a scope it captured, on a key of its kind. */
  predicate MayTake(scopes: set<Scope>, op: Gated) {
    match op
    case StoreSince(scope, key, _) => scope in scopes && IsRouteCache(key)
    case StoreForSession(scope, key, content) => scope in scopes && key in SESSION_KEYS && (key == License ==> content.None?)
    case StoreIdentityFor(scope, _) => scope in scopes
    case Commit(scope, _) => scope in scopes
    case ForgetIdentity(scope, _) => scope in scopes
    case SignOut(scope) => scope in scopes
    case EndDeleted(scope) => scope in scopes
    case _ => true
  }

  predicate Enabled(w: World, e: Event) {
    match e
    case Capture => true
    case TakeGate(op) => w.gate.None? && MayTake(w.scopes, op)
    case Enter => w.gate.Some? && !w.gate.value.entered
    case PutNext => w.gate.Some? && w.gate.value.entered && w.gate.value.puts != []
    case LeaveGate => w.gate.Some? && w.gate.value.entered && w.gate.value.puts == []
    case BeginLogin(scope, _, _) => scope in w.scopes
    case ServersArrive(scope) => scope in w.scopes
    case PrepareReturns(scope, _) => scope in w.scopes && scope.license.Some?
    case PutUnchecked(key, _) => IsUnchecked(key)
  }

  function Captured(m: Memory, now: int): Scope {
    Scope(m.licenseKey, m.sessionEpoch, m.wipeEpoch, now)
  }

  function Marked(marks: Marks, op: Gated, puts: seq<Put>, session: nat, now: int): Marks {
    if op.Wipe? then Marks(now, session, now, session)
    else if (op.Logout? || op.SignOut? || op.EndDeleted?) && puts != []
    then marks.(clearedAt := now, clearedSession := session)
    else marks
  }

  function Entering(w: World): World
    requires w.gate.Some?
  {
    var op := w.gate.value.op;
    var (m, puts) := Entered(w.m, w.store, op);
    w.(m := m, gate := Some(Holder(op, true, puts)), marks := Marked(w.marks, op, puts, m.sessionEpoch, w.now))
  }

  function Putting(w: World): World
    requires w.gate.Some? && w.gate.value.puts != []
  {
    var h := w.gate.value;
    w.(store := PutInto(w.store, h.puts[0]), gate := Some(h.(puts := h.puts[1..])))
  }

  function Step(w: World, e: Event): World
    requires Enabled(w, e)
  {
    match e
    case Capture => w.(scopes := w.scopes + {Captured(w.m, w.now)})
    case TakeGate(op) => w.(gate := Some(Holder(op, false, [])))
    case Enter => Entering(w)
    case PutNext => Putting(w)
    case LeaveGate => w.(gate := None)
    case BeginLogin(scope, license, ident) =>
      var (m, begun) := BeginSession(w.m, scope, license, ident);
      if begun then w.(m := m, scopes := w.scopes + {Captured(m, w.now)}) else w
    case ServersArrive(scope) => w.(m := InstallServers(w.m, scope).0)
    case PrepareReturns(scope, ident) => w.(m := InstallPrepared(w.m, scope, ident).0)
    case PutUnchecked(key, content) =>
      w.(store := PutInto(w.store, Put(key, if content.Some? then Some(Entry(content.value, Captured(w.m, w.now))) else None)))
  }

  function Next(w: World, e: Event): World
    requires Enabled(w, e)
  {
    Step(w, e).(now := w.now + 1)
  }

  // ---- The invariant ----

  /** What is stored under `k` was written by a call that captured its scope after this moment. */
  function Since(marks: Marks, k: Key): int {
    if IsRouteCache(k) || k == Identity then marks.wipedAt else marks.clearedAt
  }

  ghost predicate ScopeSound(s: Scope, m: Memory, marks: Marks, now: int) {
    && s.session <= m.sessionEpoch && s.wipe <= m.wipeEpoch && s.at < now
    && (s.wipe == m.wipeEpoch ==> s.at > marks.wipedAt)
    && (s.session >= marks.wipedSession ==> s.at > marks.wipedAt)
    && (s.session >= marks.clearedSession ==> s.at > marks.clearedAt)
    && (s.session == m.sessionEpoch ==> s.license == m.licenseKey)
  }

  ghost predicate ScopesSound(scopes: set<Scope>, m: Memory, marks: Marks, now: int) {
    && marks.wipedSession <= marks.clearedSession <= m.sessionEpoch
    && marks.wipedAt <= marks.clearedAt < now
    && forall s :: s in scopes ==> ScopeSound(s, m, marks, now)
  }

  /** The memory belongs to the session. */
  ghost predicate MemorySound(m: Memory, scopes: set<Scope>) {
    && (m.servers.Some? ==> m.servers.value in scopes && m.servers.value.session == m.sessionEpoch)
    && (m.prepared.Some? ==> m.prepared.value in scopes && m.prepared.value.session == m.sessionEpoch && m.prepared.value.license.Some?)
  }

  ghost predicate PutSound(p: Put, marks: Marks) {
    p.entry.Some? ==> p.entry.value.scope.at > Since(marks, p.key)
  }

  ghost predicate GateSound(gate: Option<Holder>, scopes: set<Scope>, marks: Marks) {
    gate.Some? ==>
      && MayTake(scopes, gate.value.op)
      && (!gate.value.entered ==> gate.value.puts == [])
      && forall p :: p in gate.value.puts ==> PutSound(p, marks)
  }

  /** The holder of the gate has yet to clear `k`. */
  ghost predicate ClearDue(gate: Option<Holder>, k: Key) {
    gate.Some? && Put(k, None) in gate.value.puts
  }

  ghost predicate StoreSound(store: Store, gate: Option<Holder>, marks: Marks) {
    forall k :: k in store && !IsUnchecked(k) ==> store[k].scope.at > Since(marks, k) || ClearDue(gate, k)
  }

  ghost predicate Inv(w: World) {
    && ScopesSound(w.scopes, w.m, w.marks, w.now)
    && MemorySound(w.m, w.scopes)
    && GateSound(w.gate, w.scopes, w.marks)
    && StoreSound(w.store, w.gate, w.marks)
  }

  // ---- Every step keeps the invariant ----

  lemma ClearsKey(keys: seq<Key>, k: Key)
    requires k in keys
    ensures Put(k, None) in Clears(keys)
  {
    var i :| 0 <= i < |keys| && keys[i] == k;
    assert Clears(keys)[i] == Put(k, None);
  }

  lemma EveryKeyIsStored(k: Key)
    ensures k in STORED_KEYS
    ensures IsUnchecked(k) || IsRouteCache(k) || k == Identity || k in SESSION_KEYS
  {
    var i := match k
      case License => 0 case Identity => 1 case Config => 2 case HubIp => 3 case Fronted => 4 case HubShadowsocks => 5
      case HubReality => 6 case DeadDropSeq => 7 case DeadDropAttempt => 8 case Subscription => 9 case Servers => 10
      case PendingDeregister => 11;
    assert STORED_KEYS[i] == k;
    assert SESSION_KEYS[0] == License && SESSION_KEYS[1] == Subscription && SESSION_KEYS[2] == Servers;
  }

  /** What a mark now asks of more keys, the same step's writes are due to clear. */
  lemma MarkedIsDue(m: Memory, store: Store, op: Gated, marks: Marks, now: int, k: Key)
    requires !IsUnchecked(k)
    ensures var (n, puts) := Entered(m, store, op);
      var after := Marked(marks, op, puts, n.sessionEpoch, now);
      Since(after, k) == Since(marks, k) || Put(k, None) in puts
  {
    EveryKeyIsStored(k);
    var puts := Entered(m, store, op).1;
    if op.Wipe? {
      ClearsKey(STORED_KEYS, k);
    } else if k in SESSION_KEYS && (op.Logout? || op.SignOut? || op.EndDeleted?) && puts != [] {
      ClearsKey(SESSION_KEYS, k);
      assert op.EndDeleted? ==> Clears(SESSION_KEYS) <= puts;
    }
  }

  /** What an operation is about to write, it may: its scope was captured since. */
  lemma PutsAreSound(m: Memory, store: Store, op: Gated, scopes: set<Scope>, marks: Marks, now: int)
    requires ScopesSound(scopes, m, marks, now) && MayTake(scopes, op)
    ensures var (n, puts) := Entered(m, store, op);
      forall p :: p in puts ==> PutSound(p, Marked(marks, op, puts, n.sessionEpoch, now))
  {
  }

  lemma EnterScopes(w: World)
    requires w.gate.Some? && ScopesSound(w.scopes, w.m, w.marks, w.now)
    ensures var v := Entering(w); ScopesSound(v.scopes, v.m, v.marks, w.now + 1)
  {
    var v := Entering(w);
    hide Clears, DeletedClears;
    forall s | s in v.scopes ensures ScopeSound(s, v.m, v.marks, w.now + 1) {
      assert ScopeSound(s, w.m, w.marks, w.now);
    }
  }

  lemma EnterMemory(w: World)
    requires w.gate.Some? && MemorySound(w.m, w.scopes) && MayTake(w.scopes, w.gate.value.op)
    ensures MemorySound(Entering(w).m, w.scopes)
  {
  }

  lemma EnterKeeps(w: World)
    requires Inv(w) && Enabled(w, Enter)
    ensures Inv(Next(w, Enter))
  {
    var op := w.gate.value.op;
    forall k: Key | !IsUnchecked(k)
      ensures var (n, puts) := Entered(w.m, w.store, op);
        Since(Marked(w.marks, op, puts, n.sessionEpoch, w.now), k) == Since(w.marks, k) || Put(k, None) in puts
    {
      MarkedIsDue(w.m, w.store, op, w.marks, w.now, k);
    }
    PutsAreSound(w.m, w.store, op, w.scopes, w.marks, w.now);
    EnterScopes(w);
    EnterMemory(w);
    hide Entered, Marked, Since, ScopesSound, MemorySound;
  }

  lemma PutKeeps(w: World)
    requires Inv(w) && Enabled(w, PutNext)
    ensures Inv(Next(w, PutNext))
  {
    var puts := w.gate.value.puts;
    var v := Next(w, PutNext);
    assert puts == [puts[0]] + puts[1..];
    assert forall p :: p in puts[1..] ==> p in puts;
    forall k | k in v.store && !IsUnchecked(k)
      ensures v.store[k].scope.at > Since(v.marks, k) || ClearDue(v.gate, k)
    {
      if k == puts[0].key {
        assert PutSound(puts[0], w.marks);
      } else if ClearDue(w.gate, k) {
        assert Put(k, None) in puts && Put(k, None) != puts[0];
      }
    }
    hide Since, ScopesSound, MemorySound;
  }

  lemma OtherKeeps(w: World, e: Event)
    requires Inv(w) && Enabled(w, e) && !e.Enter? && !e.PutNext?
    ensures Inv(Next(w, e))
  {
  }

  lemma NextKeeps(w: World, e: Event)
    requires Inv(w) && Enabled(w, e)
    ensures Inv(Next(w, e))
  {
    match e
    case Enter => EnterKeeps(w);
    case PutNext => PutKeeps(w);
    case _ => OtherKeeps(w, e);
  }

  // ---- Main results over runs ----

  ghost predicate Runs(w: World, events: seq<Event>, v: World)
    decreases |events|
  {
    if events == [] then v == w
    else Enabled(w, events[0]) && Runs(Next(w, events[0]), events[1..], v)
  }

  lemma StartInv(stored: map<Key, nat>)
    ensures Inv(Start(stored))
  {
  }

  lemma {:induction false} RunsKeepInv(w: World, events: seq<Event>, v: World)
    requires Inv(w) && Runs(w, events, v)
    ensures Inv(v)
    decreases |events|
  {
    if events != [] {
      hide Inv, Next, Enabled;
      NextKeeps(w, events[0]);
      RunsKeepInv(Next(w, events[0]), events[1..], v);
    }
  }

  /** A server list or a prepared config in memory was fetched under the session signed in now, with
      its license; a prepared config never outlives the sign-out. */
  lemma MemoryBelongsToTheSession(stored: map<Key, nat>, events: seq<Event>, w: World)
    requires Runs(Start(stored), events, w)
    ensures w.m.servers.Some? ==> w.m.servers.value.session == w.m.sessionEpoch && w.m.servers.value.license == w.m.licenseKey
    ensures w.m.prepared.Some? ==>
      w.m.prepared.value.session == w.m.sessionEpoch && w.m.prepared.value.license == w.m.licenseKey && w.m.licenseKey.Some?
  {
    StartInv(stored);
    RunsKeepInv(Start(stored), events, w);
  }

  /** A call whose session epoch still stands carries the license signed in now. */
  lemma EpochNamesTheLicense(stored: map<Key, nat>, events: seq<Event>, w: World, scope: Scope)
    requires Runs(Start(stored), events, w) && scope in w.scopes
    ensures scope.session == w.m.sessionEpoch ==> scope.license == w.m.licenseKey
  {
    StartInv(stored);
    RunsKeepInv(Start(stored), events, w);
  }

  lemma MarksGrow(w: World, e: Event)
    requires Inv(w) && Enabled(w, e)
    ensures w.marks.wipedAt <= Next(w, e).marks.wipedAt && w.marks.clearedAt <= Next(w, e).marks.clearedAt
  {
  }

  lemma {:induction false} RunsKeepMarks(w: World, events: seq<Event>, v: World)
    requires Inv(w) && Runs(w, events, v)
    ensures w.marks.wipedAt <= v.marks.wipedAt && w.marks.clearedAt <= v.marks.clearedAt
    decreases |events|
  {
    if events != [] {
      hide Inv, Next, Enabled;
      NextKeeps(w, events[0]);
      MarksGrow(w, events[0]);
      RunsKeepMarks(Next(w, events[0]), events[1..], v);
    }
  }

  /** After a wipe's gated step every checked key holds only what a call that captured its scope later
      wrote, or is about to be cleared by the thread that still holds the gate. */
  lemma NothingWipedComesBack(stored: map<Key, nat>, before: seq<Event>, w: World, after: seq<Event>, v: World, k: Key)
    requires Runs(Start(stored), before, w) && Enabled(w, Enter) && w.gate.value.op.Wipe?
    requires Runs(Next(w, Enter), after, v) && k in v.store && !IsUnchecked(k)
    ensures v.store[k].scope.at > w.now || ClearDue(v.gate, k)
  {
    StartInv(stored);
    RunsKeepInv(Start(stored), before, w);
    EnterKeeps(w);
    RunsKeepInv(Next(w, Enter), after, v);
    RunsKeepMarks(Next(w, Enter), after, v);
    hide ScopesSound, MemorySound, GateSound;
  }

  /** A logout; or a sign-out or a deletion that finds its session standing and its license stored. */
  ghost predicate ClearsTheSession(m: Memory, store: Store, op: Gated) {
    match op
    case Logout => true
    case SignOut(scope) => m.sessionEpoch == scope.session && Stored(store, License) == scope.license
    case EndDeleted(scope) =>
      m.sessionEpoch == scope.session && (License in store ==> Stored(store, License) == scope.license)
    case _ => false
  }

  /** The same of a session's own keys after a logout, a sign-out or a deletion that clears them. */
  lemma NothingLoggedOutComesBack(stored: map<Key, nat>, before: seq<Event>, w: World, after: seq<Event>, v: World, k: Key)
    requires Runs(Start(stored), before, w) && Enabled(w, Enter) && ClearsTheSession(w.m, w.store, w.gate.value.op)
    requires Runs(Next(w, Enter), after, v) && k in v.store && k in SESSION_KEYS
    ensures v.store[k].scope.at > w.now || ClearDue(v.gate, k)
  {
    StartInv(stored);
    RunsKeepInv(Start(stored), before, w);
    EnterKeeps(w);
    RunsKeepInv(Next(w, Enter), after, v);
    RunsKeepMarks(Next(w, Enter), after, v);
    hide ScopesSound, MemorySound, GateSound;
  }

  // ---- A write that outlives its session ----

  function LoginBegins(w: World, e: Event): nat {
    match e
    case BeginLogin(scope, license, ident) => if BeginSession(w.m, scope, license, ident).1 then 1 else 0
    case _ => 0
  }

  /** The logins that began along a run. */
  function Logins(w: World, events: seq<Event>): nat
    decreases |events|
  {
    if events == [] || !Enabled(w, events[0]) then 0
    else LoginBegins(w, events[0]) + Logins(Next(w, events[0]), events[1..])
  }

  /** While a thread holds the gate with writes to do, only a login moves the session. */
  lemma {:induction false} OnlyALoginMovesTheSession(w: World, events: seq<Event>, v: World)
    requires Runs(w, events, v) && w.gate.Some? && w.gate.value.entered
    requires PutNext !in events && LeaveGate !in events
    ensures v.gate == w.gate && v.m.sessionEpoch == w.m.sessionEpoch + Logins(w, events)
    decreases |events|
  {
    if events != [] {
      var e := events[0];
      assert e in events && forall x :: x in events[1..] ==> x in events;
      assert Next(w, e).gate == w.gate;
      OnlyALoginMovesTheSession(Next(w, e), events[1..], v);
    }
  }

  /** A storeForSession that found its session standing still has its write to do, and that write is for
      the session signed in if and only if no login began since its check. */
  lemma WriteIsForTheSessionSignedIn(w: World, events: seq<Event>, v: World)
    requires Enabled(w, Enter) && w.gate.value.op.StoreForSession?
    requires Entered(w.m, w.store, w.gate.value.op).1 != []
    requires Runs(Next(w, Enter), events, v) && PutNext !in events && LeaveGate !in events
    ensures Enabled(v, PutNext) && v.gate.value.op == w.gate.value.op
    ensures w.gate.value.op.scope.session == v.m.sessionEpoch <==> Logins(Next(w, Enter), events) == 0
  {
    OnlyALoginMovesTheSession(Next(w, Enter), events, v);
  }

  ghost predicate OutlivesItsSession(events: seq<Event>, w: World, license: nat, ident: nat) {
    && Runs(Start(map[License := license, Identity := ident]), events, w) && w.gate.None?
    && Subscription in w.store && w.store[Subscription].scope.session < w.m.sessionEpoch
  }

  lemma RunsLast(w: World, events: seq<Event>, v: World, e: Event)
    requires Runs(w, events, v) && Enabled(v, e)
    ensures Runs(w, events + [e], Next(v, e))
    decreases |events|
  {
    if events == [] {
      assert Runs(Next(v, e), [], Next(v, e));
    } else {
      assert (events + [e])[1..] == events[1..] + [e];
      RunsLast(Next(w, events[0]), events[1..], v, e);
    }
  }

  /** beginSession does not take the gate: a subscription checked against the old session can land in
      the store after a login on the same device began the new one. */
  lemma LateWriteSurvivesANewLogin(before: nat, next: nat, ident: nat, content: nat)
    ensures exists events, w :: OutlivesItsSession(events, w, before, ident)
  {
    var s := Scope(Some(before), 0, 0, 1);
    var op := StoreForSession(s, Subscription, Some(content));
    var events, w := CheckedWrite(before, ident, content);
    var v := w.(m := Memory(Some(next), Some(ident), None, None, 1, 0), scopes := {s, Scope(Some(next), 1, 0, 4)}, now := 5);
    var start := Start(map[License := before, Identity := ident]);
    hide Runs, Start;
    assert Next(w, BeginLogin(s, Some(next), ident)) == v;
    RunsLast(start, events, w, BeginLogin(s, Some(next), ident));
    events := events + [BeginLogin(s, Some(next), ident)];
    RunsLast(start, events, v, PutNext);
    RunsLast(start, events + [PutNext], Next(v, PutNext), LeaveGate);
    assert OutlivesItsSession(events + [PutNext] + [LeaveGate], Next(Next(v, PutNext), LeaveGate), before, ident);
  }

  /** A thread past its check, its write still to do. */
  lemma CheckedWrite(license: nat, ident: nat, content: nat) returns (events: seq<Event>, w: World)
    ensures var s := Scope(Some(license), 0, 0, 1);
      && Runs(Start(map[License := license, Identity := ident]), events, w)
      && w.m == Memory(Some(license), Some(ident), None, None, 0, 0) && w.scopes == {s} && w.now == 4
      && w.gate == Some(Holder(StoreForSession(s, Subscription, Some(content)), true, [Put(Subscription, Some(Entry(content, s)))]))
  {
    var s := Scope(Some(license), 0, 0, 1);
    var op := StoreForSession(s, Subscription, Some(content));
    var w0 := Start(map[License := license, Identity := ident]);
    assert w0.m == Memory(Some(license), Some(ident), None, None, 0, 0);
    assert Runs(w0, [], w0);
    RunsLast(w0, [], w0, Capture);
    hide Runs, Start;
    var w1 := w0.(scopes := {s}, now := 2);
    assert Next(w0, Capture) == w1;
    RunsLast(w0, [] + [Capture], w1, TakeGate(op));
    RunsLast(w0, [] + [Capture] + [TakeGate(op)], Next(w1, TakeGate(op)), Enter);
    events, w := [] + [Capture] + [TakeGate(op)] + [Enter], Next(Next(w1, TakeGate(op)), Enter);
  }

  // ---- The stored pair over runs ----

  /** What the store will hold once the thread at the gate has made its writes. */
  function Settled(w: World): Store {
    if w.gate.Some? && w.gate.value.entered then PutAll(w.store, w.gate.value.puts) else w.store
  }

  ghost predicate UnpairsNow(w: World, e: Event) {
    e.Enter? && w.gate.Some? && Unpairs(w.m, w.store, w.gate.value.op)
  }

  /** No operation along a run moves or forgets an identity beside a license stored without it. */
  ghost predicate NoneUnpairs(w: World, events: seq<Event>)
    decreases |events|
  {
    events != [] && Enabled(w, events[0]) ==> !UnpairsNow(w, events[0]) && NoneUnpairs(Next(w, events[0]), events[1..])
  }

  /** Puts on other keys leave the pair as it is. */
  lemma {:induction false} PairIsApart(store: Store, other: Store, puts: seq<Put>)
    requires forall k :: k == License || k == Identity ==> (k in store <==> k in other) && (k in store ==> store[k] == other[k])
    ensures Paired(PutAll(store, puts)) <==> Paired(PutAll(other, puts))
    decreases |puts|
  {
    if puts != [] {
      PairIsApart(PutInto(store, puts[0]), PutInto(other, puts[0]), puts[1..]);
    }
  }

  /** Every step but an unpairing one keeps the pair; each unpairing one breaks it. */
  lemma PairStep(w: World, e: Event)
    requires Inv(w) && Enabled(w, e) && Paired(Settled(w))
    ensures Paired(Settled(Next(w, e))) <==> !UnpairsNow(w, e)
  {
    hide ScopesSound, MemorySound, StoreSound;
    match e
    case Enter => OnlyAMovedIdentityUnpairs(w.m, w.store, w.gate.value.op);
    case PutUnchecked(key, content) =>
      var v := Next(w, e);
      PairIsApart(w.store, v.store, if w.gate.Some? then w.gate.value.puts else []);
    case _ =>
  }

  /** From a stored pair, a run in which no operation unpairs it has a pair in the store whenever the gate
      is free or just taken: so a Reload reads license and identity as one sign-in stored them. */
  lemma {:induction false} PairLastsUntilUnpaired(w: World, events: seq<Event>, v: World)
    requires Inv(w) && Runs(w, events, v) && Paired(Settled(w)) && NoneUnpairs(w, events)
    ensures Paired(Settled(v)) && (v.gate.None? || !v.gate.value.entered ==> Paired(v.store))
    decreases |events|
  {
    if events != [] {
      PairStep(w, events[0]);
      NextKeeps(w, events[0]);
      hide Inv, Next, Enabled, Settled, UnpairsNow;
      PairLastsUntilUnpaired(Next(w, events[0]), events[1..], v);
    }
  }

  /** A commit that finds its session standing pairs whatever was stored before. */
  lemma CommitPairs(w: World)
    requires Enabled(w, Enter) && w.gate.value.op.Commit? && w.m.sessionEpoch == w.gate.value.op.scope.session
    ensures Paired(Settled(Next(w, Enter)))
  {
    var puts := Entered(w.m, w.store, w.gate.value.op).1;
    PutTwo(w.store, puts[0], puts[1]);
    assert puts == [puts[0], puts[1]];
  }

  /** What is stored at the start counts as one pair, where a license came with an identity. */
  lemma StartsPaired(stored: map<Key, nat>)
    requires License in stored ==> Identity in stored
    ensures Paired(Settled(Start(stored)))
  {
  }

  /** A reload comes to a store in which a license stands beside the identity stored with it, unless an
      operation of the run unpaired them. */
  lemma ReloadReadsOnePair(stored: map<Key, nat>, events: seq<Event>, w: World)
    requires License in stored ==> Identity in stored
    requires Runs(Start(stored), events, w) && NoneUnpairs(Start(stored), events)
    requires Enabled(w, Enter) && w.gate.value.op.Reload?
    ensures Paired(w.store)
  {
    StartInv(stored);
    StartsPaired(stored);
    hide Inv, Start;
    PairLastsUntilUnpaired(Start(stored), events, w);
  }

  // ---- When a session ends ----

  /** The stored license or the stored identity is not the one in memory. */
  ghost predicate StoreMoved(w: World) {
    || w.m.licenseKey != (if License in w.store then Some(w.store[License].value) else None)
    || w.m.identity != (if Identity in w.store then Some(w.store[Identity].value) else None)
  }

  /** The events that end the session signed in: a login that begins, a sign-out of it, a wipe, and a
      reload that finds another license or another device. */
  ghost predicate EndsTheSession(w: World, e: Event) {
    match e
    case BeginLogin(scope, _, _) => scope.session == w.m.sessionEpoch
    case Enter => w.gate.Some? && (match w.gate.value.op
      case Logout => true
      case Wipe => true
      case SignOut(scope) => scope.session == w.m.sessionEpoch
      case EndDeleted(scope) => scope.session == w.m.sessionEpoch
      case Reload => StoreMoved(w)
      case _ => false)
    case _ => false
  }

  /** Exactly those move the epoch, by one, and with it drop the prepared config and the server list. */
  lemma SessionEndsExactlyWhen(w: World, e: Event)
    requires Enabled(w, e)
    ensures var v := Next(w, e);
      if EndsTheSession(w, e) then v.m.sessionEpoch == w.m.sessionEpoch + 1 && v.m.prepared.None? && v.m.servers.None?
      else v.m.sessionEpoch == w.m.sessionEpoch
  {
    hide Clears, DeletedClears;
  }

  /** Who is signed in, on which device, after each event. */
  lemma SignedInAfter(w: World, e: Event)
    requires Enabled(w, e)
    ensures var v := Next(w, e);
      match e
      case BeginLogin(scope, license, ident) =>
        if scope.session == w.m.sessionEpoch then v.m.licenseKey == license && v.m.identity == Some(ident)
        else v.m.licenseKey == w.m.licenseKey && v.m.identity == w.m.identity
      case Enter => (match w.gate.value.op
        case Logout => v.m.licenseKey == None && v.m.identity == w.m.identity
        case Wipe => v.m.licenseKey == None && v.m.identity == None && v.m.wipeEpoch == w.m.wipeEpoch + 1
        case SignOut(scope) =>
          v.m.identity == w.m.identity && v.m.licenseKey == if scope.session == w.m.sessionEpoch then None else w.m.licenseKey
        case EndDeleted(scope) =>
          if scope.session == w.m.sessionEpoch then v.m.licenseKey == None && v.m.identity == None
          else v.m.licenseKey == w.m.licenseKey && v.m.identity == w.m.identity
        case Reload =>
          && v.m.licenseKey == (if License in w.store then Some(w.store[License].value) else None)
          && v.m.identity == (if Identity in w.store then Some(w.store[Identity].value) else None)
        case StoreIdentityFor(scope, ident) =>
          v.m.licenseKey == w.m.licenseKey && v.m.identity == if scope.session == w.m.sessionEpoch then Some(ident) else w.m.identity
        case Commit(scope, ident) =>
          v.m.licenseKey == w.m.licenseKey && v.m.identity == if scope.session == w.m.sessionEpoch then Some(ident) else w.m.identity
        case ForgetIdentity(scope, ident) =>
          && v.m.licenseKey == w.m.licenseKey
          && v.m.identity == if scope.session == w.m.sessionEpoch && w.m.identity == Some(ident) then None else w.m.identity
        case _ => v.m == w.m)
      case _ => v.m.licenseKey == w.m.licenseKey && v.m.identity == w.m.identity && v.m.wipeEpoch == w.m.wipeEpoch
  {
    hide Clears, DeletedClears;
  }

  /** A reload over any run: another license or another device in the store ends the session, and no call
      begun before belongs to the new one; else memory stays, but for a server list no license stands by. */
  lemma ReloadFollowsTheStore(stored: map<Key, nat>, events: seq<Event>, w: World)
    requires Runs(Start(stored), events, w) && Enabled(w, Enter) && w.gate.value.op.Reload?
    ensures var v := Next(w, Enter);
      if StoreMoved(w) then
        v.m.prepared.None? && v.m.servers.None? && forall s :: s in w.scopes ==> s.session != v.m.sessionEpoch
      else v.m == w.m.(servers := if w.m.licenseKey.None? then None else w.m.servers)
  {
    StartInv(stored);
    RunsKeepInv(Start(stored), events, w);
    hide MemorySound, GateSound, StoreSound;
  }

  /** How often the session ended along a run. */
  ghost function Endings(w: World, events: seq<Event>): nat
    decreases |events|
  {
    if events == [] || !Enabled(w, events[0]) then 0
    else (if EndsTheSession(w, events[0]) then 1 else 0) + Endings(Next(w, events[0]), events[1..])
  }

  lemma {:induction false} EndingsMoveTheEpoch(w: World, events: seq<Event>, v: World)
    requires Runs(w, events, v)
    ensures v.m.sessionEpoch == w.m.sessionEpoch + Endings(w, events)
    decreases |events|
  {
    if events != [] {
      SessionEndsExactlyWhen(w, events[0]);
      hide Next, Enabled, EndsTheSession;
      EndingsMoveTheEpoch(Next(w, events[0]), events[1..], v);
    }
  }

  /** A late answer of a call lands in memory if and only if its session has not ended since the call
      captured it; a prepared config also needs the device it was registered for. */
  lemma AnswerLandsExactlyWhen(w: World, events: seq<Event>, v: World, ident: nat)
    requires Runs(Next(w, Capture), events, v)
    ensures var s := Captured(w.m, w.now);
      var stands := Endings(Next(w, Capture), events) == 0;
      && InstallServers(v.m, s) == (if stands then v.m.(servers := Some(s)) else v.m, stands)
      && InstallPrepared(v.m, s, ident)
        == (if stands && v.m.identity == Some(ident) then v.m.(prepared := Some(s)) else v.m, stands && v.m.identity == Some(ident))
    ensures var s := Captured(w.m, w.now);
      var stands := Endings(Next(w, Capture), events) == 0;
      && (Enabled(v, ServersArrive(s)) ==> Next(v, ServersArrive(s)).m == if stands then v.m.(servers := Some(s)) else v.m)
      && (Enabled(v, PrepareReturns(s, ident)) ==>
           Next(v, PrepareReturns(s, ident)).m == if stands && v.m.identity == Some(ident) then v.m.(prepared := Some(s)) else v.m)
  {
    EndingsMoveTheEpoch(Next(w, Capture), events, v);
  }

  /** A server list or a config in memory stays there until its session ends or another takes its place. */
  lemma MemoryStaysWithTheSession(w: World, e: Event)
    requires Enabled(w, e) && !EndsTheSession(w, e)
    ensures var v := Next(w, e);
      && (v.m.prepared == w.m.prepared || (e.PrepareReturns? && v.m.prepared == Some(e.scope)))
      && (v.m.servers == w.m.servers || (e.ServersArrive? && v.m.servers == Some(e.scope))
          || (e.Enter? && w.gate.value.op.Commit? && v.m.servers == Some(w.gate.value.op.scope))
          || (e.Enter? && w.gate.value.op.Reload? && v.m.licenseKey.None? && v.m.servers.None?))
    ensures e.Enter? && w.gate.value.op.Commit? && w.gate.value.op.scope.session == w.m.sessionEpoch ==>
      Next(w, e).m.servers == Some(w.gate.value.op.scope)
  {
    hide Clears, DeletedClears;
  }

  /** What an operation settles at its `mu` section is what the store holds once it leaves the gate. */
  lemma WritesAreMade(w: World, e: Event)
    requires Enabled(w, e)
    ensures e.Enter? ==> Settled(Next(w, e)) == Ran(w.m, w.store, w.gate.value.op).1
    ensures e.PutNext? ==> Settled(Next(w, e)) == Settled(w)
    ensures e.LeaveGate? ==> Next(w, e).store == Settled(w)
    ensures e.TakeGate? || e.Capture? || e.BeginLogin? || e.ServersArrive? || e.PrepareReturns? ==> Next(w, e).store == w.store
  {
    hide Entered;
  }

  lemma {:induction false} PutsRunThrough(w: World) returns (events: seq<Event>, v: World)
    requires w.gate.Some? && w.gate.value.entered
    ensures Runs(w, events, v) && v.gate.None? && v.store == Settled(w)
    decreases |w.gate.value.puts|
  {
    var e := if w.gate.value.puts == [] then LeaveGate else PutNext;
    var n := Next(w, e);
    WritesAreMade(w, e);
    var rest: seq<Event> := [];
    v := n;
    assert Runs(n, [], n);
    if e.PutNext? {
      rest, v := PutsRunThrough(n);
    }
    events := [e] + rest;
    assert events[1..] == rest;
  }

  /** Whoever has the gate gets through, with nothing to wait for: a wipe, a logout and a reload any time
      the gate is free, any other operation with a scope it captured. */
  lemma OperationsRunThrough(w: World, op: Gated) returns (events: seq<Event>, v: World)
    requires w.gate.None? && (op.Wipe? || op.Logout? || op.Reload? || MayTake(w.scopes, op))
    ensures Runs(w, events, v) && v.gate.None? && v.store == Ran(w.m, w.store, op).1
  {
    var taken := Next(w, TakeGate(op));
    var entered := Next(taken, Enter);
    WritesAreMade(taken, Enter);
    var rest: seq<Event>;
    rest, v := PutsRunThrough(entered);
    hide Ran, Settled, Entering;
    assert Runs(taken, [Enter] + rest, v) by { assert ([Enter] + rest)[1..] == rest; }
    events := [TakeGate(op)] + ([Enter] + rest);
    assert events[1..] == [Enter] + rest;
  }
}
