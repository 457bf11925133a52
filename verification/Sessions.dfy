/** The signed-in session of package mobile: what it keeps in memory under `mu`, what it keeps in the
    secret store under `storeGate`, and the epochs that tell late work its session is over. */
module Sessions {
  import opened Support

  datatype Key =
    | License | Identity | Config
    | HubIp | Fronted | HubShadowsocks | HubReality
    | DeadDropSeq | DeadDropAttempt
    | Subscription | Servers | PendingDeregister

  const STORED_KEYS := [
    License, Identity, Config, HubIp, Fronted, HubShadowsocks, HubReality,
    DeadDropSeq, DeadDropAttempt, Subscription, Servers, PendingDeregister]

  const SESSION_KEYS := [License, Subscription, Servers]

  predicate IsRouteCache(k: Key) {
    k in {HubIp, Fronted, HubShadowsocks, HubReality, DeadDropSeq, DeadDropAttempt}
  }

  /** Written without an epoch check. */
  predicate IsUnchecked(k: Key) {
    k == Config || k == PendingDeregister
  }

  /** What a call captured before it reached the hub; `at` is when, and is read by no step. A license or
      a device identity is named by a number; no license is the empty one. */
  datatype Scope = Scope(license: Option<nat>, session: nat, wipe: nat, at: int)

  /** `servers` and `prepared` are represented by the scope they were fetched under. */
  datatype Memory = Memory(
    licenseKey: Option<nat>,
    identity: Option<nat>,
    servers: Option<Scope>,
    prepared: Option<Scope>,
    sessionEpoch: nat,
    wipeEpoch: nat)

  /** A stored value with the scope it was written under; an empty value is an absent key. */
  datatype Entry = Entry(value: nat, scope: Scope)

  type Store = map<Key, Entry>

  datatype Put = Put(key: Key, entry: Option<Entry>)

  function PutInto(store: Store, put: Put): Store {
    if put.entry.Some? then store[put.key := put.entry.value] else store - {put.key}
  }

  function PutAll(store: Store, puts: seq<Put>): Store
    decreases |puts|
  {
    if puts == [] then store else PutAll(PutInto(store, puts[0]), puts[1..])
  }

  function Clears(keys: seq<Key>): seq<Put> {
    seq(|keys|, i requires 0 <= i < |keys| => Put(keys[i], None))
  }

  /** What takes the gate. */
  datatype Gated =
    | StoreSince(scope: Scope, key: Key, value: nat)
    | StoreForSession(scope: Scope, key: Key, content: Option<nat>)
    | StoreIdentityFor(scope: Scope, ident: nat)
    | Commit(scope: Scope, ident: nat)
    | ForgetIdentity(scope: Scope, ident: nat)
    | Logout
    | SignOut(scope: Scope)
    | EndDeleted(scope: Scope)
    | Wipe
    | Reload

  function Stored(store: Store, k: Key): Option<nat> {
    if k in store then Some(store[k].value) else None
  }

  function SignedOut(m: Memory): Memory {
    m.(licenseKey := None, servers := None, prepared := None, sessionEpoch := m.sessionEpoch + 1)
  }

  function Reloaded(m: Memory, license: Option<nat>, identity: Option<nat>): Memory {
    var changed := license != m.licenseKey || identity != m.identity;
    var n := if changed then m.(prepared := None, servers := None, sessionEpoch := m.sessionEpoch + 1) else m;
    n.(licenseKey := license, identity := identity, servers := if license.None? then None else n.servers)
  }

  function DeletedClears(store: Store, scope: Scope, identity: Option<nat>): seq<Put> {
    if License in store && Stored(store, License) != scope.license then []
    else Clears(SESSION_KEYS) + if Stored(store, Identity) == identity then Clears([Identity]) else []
  }

  /** The `mu` section of a gated operation, and the writes it leaves to do while it still holds the gate. */
  function Entered(m: Memory, store: Store, op: Gated): (Memory, seq<Put>) {
    match op
    case StoreSince(scope, key, value) =>
      (m, if m.wipeEpoch == scope.wipe then [Put(key, Some(Entry(value, scope)))] else [])
    case StoreForSession(scope, key, content) =>
      (m, if m.sessionEpoch != scope.session then []
          else [Put(key, if content.Some? then Some(Entry(content.value, scope)) else None)])
    case StoreIdentityFor(scope, ident) =>
      if m.sessionEpoch != scope.session then (m, [])
      else (m.(identity := Some(ident)), [Put(Identity, Some(Entry(ident, scope)))])
    case Commit(scope, ident) =>
      if m.sessionEpoch != scope.session then (m, [])
      else (m.(identity := Some(ident), servers := Some(scope)),
            [Put(Identity, Some(Entry(ident, scope))),
             Put(License, if scope.license.Some? then Some(Entry(scope.license.value, scope)) else None)])
    case ForgetIdentity(scope, ident) =>
      if m.sessionEpoch != scope.session then (m, [])
      else (m.(identity := if m.identity == Some(ident) then None else m.identity),
            if Stored(store, Identity) == Some(ident) then Clears([Identity]) else [])
    case Logout => (SignedOut(m), Clears(SESSION_KEYS))
    case SignOut(scope) =>
      if m.sessionEpoch != scope.session then (m, [])
      else (SignedOut(m), if Stored(store, License) == scope.license then Clears(SESSION_KEYS) else [])
    case EndDeleted(scope) =>
      if m.sessionEpoch != scope.session then (m, [])
      else (SignedOut(m).(identity := None), DeletedClears(store, scope, m.identity))
    case Wipe => (SignedOut(m).(identity := None, wipeEpoch := m.wipeEpoch + 1), Clears(STORED_KEYS))
    case Reload => (Reloaded(m, Stored(store, License), Stored(store, Identity)), [])
  }

  // ---- Steps that take `mu` alone ----

  function BeginSession(m: Memory, scope: Scope, license: Option<nat>, ident: nat): (Memory, bool) {
    if m.sessionEpoch != scope.session then (m, false)
    else (m.(licenseKey := license, identity := Some(ident), servers := None, prepared := None,
             sessionEpoch := m.sessionEpoch + 1), true)
  }

  function InstallServers(m: Memory, scope: Scope): (Memory, bool) {
    if m.sessionEpoch != scope.session then (m, false) else (m.(servers := Some(scope)), true)
  }

  function InstallPrepared(m: Memory, scope: Scope, ident: nat): (Memory, bool) {
    if m.sessionEpoch != scope.session || m.identity != Some(ident) then (m, false)
    else (m.(prepared := Some(scope)), true)
  }

  // ---- The session as an object ----

  /** A gated operation run to its end, with nothing in between. */
  ghost function Ran(m: Memory, store: Store, op: Gated): (Memory, Store) {
    var (n, puts) := Entered(m, store, op);
    (n, PutAll(store, puts))
  }

  lemma PutOne(store: Store, p: Put)
    ensures PutAll(store, [p]) == PutInto(store, p)
  {
    assert [p][1..] == [];
  }

  lemma PutTwo(store: Store, p: Put, q: Put)
    ensures PutAll(store, [p, q]) == PutInto(PutInto(store, p), q)
  {
    assert [p, q][1..] == [q];
    PutOne(PutInto(store, p), q);
  }

  class Session {
    var licenseKey: Option<nat>
    var identity: Option<nat>
    var servers: Option<Scope>
    var prepared: Option<Scope>
    var sessionEpoch: nat
    var wipeEpoch: nat
    var store: Store

    ghost function Mem(): Memory
      reads this
    {
      Memory(licenseKey, identity, servers, prepared, sessionEpoch, wipeEpoch)
    }

    constructor (stored: Store)
      ensures Mem() == Memory(Stored(stored, License), Stored(stored, Identity), None, None, 0, 0) && store == stored
    {
      licenseKey, identity := Stored(stored, License), Stored(stored, Identity);
      servers, prepared, sessionEpoch, wipeEpoch, store := None, None, 0, 0, stored;
    }

    method Set(key: Key, entry: Option<Entry>)
      modifies this`store
      ensures store == PutInto(old(store), Put(key, entry))
    {
      if entry.Some? {
        store := store[key := entry.value];
      } else {
        store := store - {key};
      }
    }

    method ClearKeys(keys: seq<Key>)
      modifies this`store
      ensures store == PutAll(old(store), Clears(keys))
    {
      for i := 0 to |keys|
        invariant PutAll(store, Clears(keys[i..])) == PutAll(old(store), Clears(keys))
      {
        assert Clears(keys[i..])[1..] == Clears(keys[i + 1..]);
        Set(keys[i], None);
      }
    }

    method SetStoredSince(scope: Scope, key: Key, value: nat)
      modifies this
      ensures (Mem(), store) == Ran(old(Mem()), old(store), StoreSince(scope, key, value))
    {
      PutOne(store, Put(key, Some(Entry(value, scope))));
      if wipeEpoch == scope.wipe {
        Set(key, Some(Entry(value, scope)));
      }
    }

    method SetForSession(scope: Scope, key: Key, content: Option<nat>)
      modifies this
      ensures (Mem(), store) == Ran(old(Mem()), old(store), StoreForSession(scope, key, content))
    {
      var entry := if content.Some? then Some(Entry(content.value, scope)) else None;
      PutOne(store, Put(key, entry));
      if sessionEpoch == scope.session {
        Set(key, entry);
      }
    }

    method SetIdentityFor(scope: Scope, ident: nat) returns (stored: bool)
      modifies this
      ensures (Mem(), store) == Ran(old(Mem()), old(store), StoreIdentityFor(scope, ident))
      ensures stored <==> old(sessionEpoch) == scope.session
    {
      if sessionEpoch != scope.session {
        return false;
      }
      PutOne(store, Put(Identity, Some(Entry(ident, scope))));
      identity := Some(ident);
      Set(Identity, Some(Entry(ident, scope)));
      stored := true;
    }

    method CommitSession(scope: Scope, ident: nat) returns (committed: bool)
      modifies this
      ensures (Mem(), store) == Ran(old(Mem()), old(store), Commit(scope, ident))
      ensures committed <==> old(sessionEpoch) == scope.session
    {
      if sessionEpoch != scope.session {
        return false;
      }
      var license := if scope.license.Some? then Some(Entry(scope.license.value, scope)) else None;
      PutTwo(store, Put(Identity, Some(Entry(ident, scope))), Put(License, license));
      identity, servers := Some(ident), Some(scope);
      Set(Identity, Some(Entry(ident, scope)));
      Set(License, license);
      committed := true;
    }

    method ForgetIdentityIf(scope: Scope, ident: nat)
      modifies this
      ensures (Mem(), store) == Ran(old(Mem()), old(store), ForgetIdentity(scope, ident))
    {
      if sessionEpoch != scope.session {
        return;
      }
      if identity == Some(ident) {
        identity := None;
      }
      if Stored(store, Identity) == Some(ident) {
        ClearKeys([Identity]);
      }
    }

    method EndSession()
      modifies this
      ensures Mem() == SignedOut(old(Mem())) && store == old(store)
    {
      licenseKey, servers, prepared := None, None, None;
      sessionEpoch := sessionEpoch + 1;
    }

    method LogOut()
      modifies this
      ensures (Mem(), store) == Ran(old(Mem()), old(store), Logout)
    {
      EndSession();
      ClearKeys(SESSION_KEYS);
    }

    method SignOutLocally(scope: Scope)
      modifies this
      ensures (Mem(), store) == Ran(old(Mem()), old(store), SignOut(scope))
    {
      if sessionEpoch != scope.session {
        return;
      }
      EndSession();
      if Stored(store, License) == scope.license {
        ClearKeys(SESSION_KEYS);
      }
    }

    method EndDeletedAccount(scope: Scope)
      modifies this
      ensures (Mem(), store) == Ran(old(Mem()), old(store), EndDeleted(scope))
    {
      if sessionEpoch != scope.session {
        return;
      }
      var pub := identity;
      EndSession();
      identity := None;
      if License in store && Stored(store, License) != scope.license {
        return;
      }
      var drop := Stored(store, Identity) == pub;
      DeletedPuts(store, scope, pub);
      ClearKeys(SESSION_KEYS + if drop then [Identity] else []);
    }

    method WipeAll()
      modifies this
      ensures (Mem(), store) == Ran(old(Mem()), old(store), Wipe)
    {
      EndSession();
      identity := None;
      wipeEpoch := wipeEpoch + 1;
      ClearKeys(STORED_KEYS);
    }

    method ReloadAll()
      modifies this
      ensures (Mem(), store) == Ran(old(Mem()), old(store), Reload)
    {
      var license, ident := Stored(store, License), Stored(store, Identity);
      var changed := license != licenseKey || ident != identity;
      licenseKey, identity := license, ident;
      if changed {
        prepared, servers := None, None;
        sessionEpoch := sessionEpoch + 1;
      }
      if licenseKey.None? {
        servers := None;
      }
    }

    method Begin(scope: Scope, license: Option<nat>, ident: nat) returns (begun: bool)
      modifies this
      ensures (Mem(), begun) == BeginSession(old(Mem()), scope, license, ident) && store == old(store)
    {
      if sessionEpoch != scope.session {
        return false;
      }
      licenseKey, identity, servers, prepared := license, Some(ident), None, None;
      sessionEpoch := sessionEpoch + 1;
      begun := true;
    }

    method LoadServers(scope: Scope) returns (loaded: bool)
      modifies this
      ensures (Mem(), loaded) == InstallServers(old(Mem()), scope) && store == old(store)
    {
      if sessionEpoch != scope.session {
        return false;
      }
      servers := Some(scope);
      loaded := true;
    }
  }

  lemma DeletedPuts(store: Store, scope: Scope, identity: Option<nat>)
    requires !(License in store && Stored(store, License) != scope.license)
    ensures DeletedClears(store, scope, identity)
      == Clears(SESSION_KEYS + if Stored(store, Identity) == identity then [Identity] else [])
  {
  }

  // ---- The stored pair ----

  /** A stored license is stored beside the identity written with it. */
  ghost predicate Paired(store: Store) {
    License in store ==> Identity in store && store[Identity].scope == store[License].scope
  }

  /** A rotated or a forgotten identity leaves a license stored earlier without its own. */
  ghost predicate Unpairs(m: Memory, store: Store, op: Gated) {
    match op
    case StoreIdentityFor(scope, _) => m.sessionEpoch == scope.session && License in store && store[License].scope != scope
    case ForgetIdentity(scope, ident) => m.sessionEpoch == scope.session && License in store && Stored(store, Identity) == Some(ident)
    case _ => false
  }

  /** What a Reload may read: from a pair, a gated operation leaves a pair, except exactly when it moves
      the identity of a session whose license is not stored yet, or forgets the identity of one whose
      license still is. */
  lemma OnlyAMovedIdentityUnpairs(m: Memory, store: Store, op: Gated)
    requires Paired(store)
    requires op.StoreForSession? ==> op.key in SESSION_KEYS && (op.key == License ==> op.content.None?)
    requires op.StoreSince? ==> IsRouteCache(op.key)
    ensures Paired(Ran(m, store, op).1) <==> !Unpairs(m, store, op)
  {
    var puts := Entered(m, store, op).1;
    if |puts| == 1 {
      assert op.ForgetIdentity? ==> puts[0] == Put(Identity, None);
      assert op.StoreForSession? ==> puts[0].key == op.key;
      assert op.StoreForSession? ==> op.key in {License, Subscription, Servers};
      PutOne(store, puts[0]);
      assert puts == [puts[0]];
    } else if |puts| == 2 {
      PutTwo(store, puts[0], puts[1]);
    } else {
      ClearedStaysOut(store, puts);
    }
  }

  /** Many puts are the clears of a sign-out, the license first. */
  lemma ClearedStaysOut(store: Store, puts: seq<Put>)
    requires forall p :: p in puts ==> p.entry.None?
    ensures forall k :: k in PutAll(store, puts) <==> k in store && Put(k, None) !in puts
    ensures forall k :: k in PutAll(store, puts) ==> PutAll(store, puts)[k] == store[k]
    decreases |puts|
  {
    if puts != [] {
      ClearedStaysOut(PutInto(store, puts[0]), puts[1..]);
    }
  }

  /** A login that rotates its device identity stores it before its license: a Reload in between signs
      the previous account back in under the new device. */
  lemma ReloadReadsAnUnpairedLicense(m: Memory, store: Store, scope: Scope, next: nat, ident: nat, rotation: nat)
    requires scope.session == m.sessionEpoch && License in store
    ensures var begun := BeginSession(m, scope, Some(next), ident).0;
      var later := Scope(Some(next), begun.sessionEpoch, begun.wipeEpoch, scope.at + 1);
      var rotated := Ran(begun, store, StoreIdentityFor(later, rotation));
      var reloaded := Ran(rotated.0, rotated.1, Reload).0;
      reloaded.licenseKey == Some(store[License].value) && reloaded.identity == Some(rotation)
  {
    var begun := BeginSession(m, scope, Some(next), ident).0;
    var later := Scope(Some(next), begun.sessionEpoch, begun.wipeEpoch, scope.at + 1);
    PutOne(store, Put(Identity, Some(Entry(rotation, later))));
  }

  // ---- What each gated operation leaves in the store ----

  lemma {:induction false} ClearedKeysAreGone(store: Store, keys: seq<Key>)
    ensures PutAll(store, Clears(keys)) == map k | k in store && k !in keys :: store[k]
  {
    var puts := Clears(keys);
    ClearedStaysOut(store, puts);
    assert forall k :: Put(k, None) in puts <==> k in keys by {
      assert forall i :: 0 <= i < |keys| ==> puts[i] == Put(keys[i], None);
    }
  }

  /** A wipe leaves nothing; a logout all but the session's keys. */
  lemma WipeAndLogoutClear(m: Memory, store: Store)
    ensures Ran(m, store, Wipe).1 == map[]
    ensures Ran(m, store, Logout).1 == map k | k in store && k != License && k != Subscription && k != Servers :: store[k]
    ensures Ran(m, store, Reload).1 == store
  {
    ClearedKeysAreGone(store, STORED_KEYS);
    ClearedKeysAreGone(store, SESSION_KEYS);
    forall k: Key ensures k in STORED_KEYS {
      var i := match k
        case License => 0 case Identity => 1 case Config => 2 case HubIp => 3 case Fronted => 4 case HubShadowsocks => 5
        case HubReality => 6 case DeadDropSeq => 7 case DeadDropAttempt => 8 case Subscription => 9 case Servers => 10
        case PendingDeregister => 11;
      assert STORED_KEYS[i] == k;
    }
    assert PutAll(store, []) == store;
    hide PutAll, Clears;
  }

  /** A refused or deleted session clears its own keys and no other session's. */
  lemma EndedSessionClearsItsOwn(m: Memory, store: Store, scope: Scope)
    ensures Ran(m, store, SignOut(scope)).1 ==
      if m.sessionEpoch == scope.session && (if License in store then scope.license == Some(store[License].value) else scope.license.None?)
      then map k | k in store && k != License && k != Subscription && k != Servers :: store[k]
      else store
    ensures var r := Ran(m, store, EndDeleted(scope)).1;
      if m.sessionEpoch != scope.session || (License in store && scope.license != Some(store[License].value)) then r == store
      else
        var its := Identity in store && m.identity == Some(store[Identity].value);
        r == map k | k in store && k != License && k != Subscription && k != Servers && !(k == Identity && its) :: store[k]
  {
    ClearedKeysAreGone(store, SESSION_KEYS);
    ClearedKeysAreGone(store, SESSION_KEYS + [Identity]);
    assert PutAll(store, []) == store;
    assert Clears(SESSION_KEYS) + [] == Clears(SESSION_KEYS);
    assert Clears(SESSION_KEYS) + Clears([Identity]) == Clears(SESSION_KEYS + [Identity]);
    hide PutAll, Clears;
  }

  /** A checked write lands exactly while its epoch stands, on its own key alone. */
  lemma CheckedWritesLand(m: Memory, store: Store, scope: Scope, key: Key, value: nat, content: Option<nat>)
    ensures Ran(m, store, StoreSince(scope, key, value)).1 ==
      if m.wipeEpoch == scope.wipe then store[key := Entry(value, scope)] else store
    ensures Ran(m, store, StoreForSession(scope, key, content)).1 ==
      if m.sessionEpoch != scope.session then store
      else if content.Some? then store[key := Entry(content.value, scope)] else store - {key}
  {
    PutOne(store, Put(key, Some(Entry(value, scope))));
    PutOne(store, Put(key, if content.Some? then Some(Entry(content.value, scope)) else None));
    assert PutAll(store, []) == store;
    hide PutAll;
  }

  /** A login's writes land exactly while its session stands; a forgotten identity is the named one. */
  lemma SessionWritesLand(m: Memory, store: Store, scope: Scope, ident: nat)
    ensures Ran(m, store, StoreIdentityFor(scope, ident)).1 ==
      if m.sessionEpoch == scope.session then store[Identity := Entry(ident, scope)] else store
    ensures Ran(m, store, Commit(scope, ident)).1 ==
      if m.sessionEpoch != scope.session then store
      else if scope.license.None? then store[Identity := Entry(ident, scope)] - {License}
      else store[Identity := Entry(ident, scope)][License := Entry(scope.license.value, scope)]
    ensures Ran(m, store, ForgetIdentity(scope, ident)).1 ==
      if m.sessionEpoch == scope.session && Identity in store && store[Identity].value == ident then store - {Identity} else store
  {
    var license := if scope.license.Some? then Some(Entry(scope.license.value, scope)) else None;
    PutOne(store, Put(Identity, Some(Entry(ident, scope))));
    PutTwo(store, Put(Identity, Some(Entry(ident, scope))), Put(License, license));
    ClearedKeysAreGone(store, [Identity]);
    assert store - {Identity} == map k | k in store && k !in [Identity] :: store[k];
    assert PutAll(store, []) == store;
    hide PutAll, Clears;
  }
}
