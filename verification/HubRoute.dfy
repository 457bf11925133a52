/** The hub route: which connection methods are switched on, the search that walks them, and the route
    in use with its failure bookkeeping. A route is named by the order in which searches found it. */
module HubRoute {
  import opened Support

  // ---- Connection methods ----

  datatype Method = DirectIp | Reality | Shadowsocks | Fronted | Normal

  /** `rev` records which default changes a stored blob has already seen. */
  datatype Methods = Methods(directIp: bool, reality: bool, shadowsocks: bool, fronted: bool, normal: bool, rev: int)

  const METHOD_ORDER := [DirectIp, Reality, Shadowsocks, Fronted, Normal]
  const METHODS_REV := 2
  const DEFAULT_METHODS := Methods(true, true, true, true, false, METHODS_REV)

  function IsOn(m: Methods, kind: Method): bool {
    match kind
    case DirectIp => m.directIp
    case Reality => m.reality
    case Shadowsocks => m.shadowsocks
    case Fronted => m.fronted
    case Normal => m.normal
  }

  function EnabledAmong(order: seq<Method>, m: Methods): (r: seq<Method>)
    ensures forall x :: x in r <==> x in order && IsOn(m, x)
  {
    if order == [] then []
    else (if IsOn(m, order[0]) then [order[0]] else []) + EnabledAmong(order[1..], m)
  }

  function EnabledMethods(m: Methods): seq<Method> {
    EnabledAmong(METHOD_ORDER, m)
  }

  /** Each default that changed is applied once to a blob stored before it did; all-off is corrected. */
  function Normalize(m: Methods): Methods {
    var first := if m.rev >= 1 then m else m.(shadowsocks := true, fronted := true);
    var out := (if m.rev >= 2 then first else first.(reality := true)).(rev := METHODS_REV);
    if EnabledMethods(out) == [] then DEFAULT_METHODS else out
  }

  /** A search under the settings `m` may use `kind`. */
  predicate Allowed(m: Methods, kind: Method) {
    kind in EnabledMethods(Normalize(m))
  }

  lemma EnabledAre(m: Methods)
    ensures forall x :: x in EnabledMethods(m) <==> IsOn(m, x)
    ensures EnabledMethods(m) == [] <==> !m.directIp && !m.reality && !m.shadowsocks && !m.fronted && !m.normal
  {
    hide EnabledAmong;
    forall x: Method ensures x in METHOD_ORDER {
      assert x == METHOD_ORDER[match x case DirectIp => 0 case Reality => 1 case Shadowsocks => 2 case Fronted => 3 case Normal => 4];
    }
    if EnabledMethods(m) != [] {
      assert EnabledMethods(m)[0] in EnabledMethods(m);
    }
    assert forall x :: IsOn(m, x) ==> x in EnabledMethods(m);
    assert IsOn(m, DirectIp) == m.directIp && IsOn(m, Reality) == m.reality && IsOn(m, Shadowsocks) == m.shadowsocks;
    assert IsOn(m, Fronted) == m.fronted && IsOn(m, Normal) == m.normal;
  }

  /** Something is always switched on; a blob of this revision keeps exactly its own switches; and no
      correction ever allows the cleartext method, only its own switch does. */
  lemma NormalizeKeepsSwitches(m: Methods)
    ensures EnabledMethods(Normalize(m)) != []
    ensures Normalize(Normalize(m)) == Normalize(m)
    ensures m.rev >= METHODS_REV && EnabledMethods(m) != [] ==> forall x :: Allowed(m, x) <==> IsOn(m, x)
    ensures Allowed(m, Normal) <==> m.normal
  {
    hide EnabledMethods;
    var first := if m.rev >= 1 then m else m.(shadowsocks := true, fronted := true);
    EnabledAre((if m.rev >= 2 then first else first.(reality := true)).(rev := METHODS_REV));
    EnabledAre(DEFAULT_METHODS);
    EnabledAre(m);
    EnabledAre(Normalize(m));
  }

  /** A blob stored before a default changed gets the new default once, its other switches untouched. */
  lemma ChangedDefaultsApplyOnce(m: Methods)
    ensures m.rev < METHODS_REV ==> Allowed(m, Reality)
    ensures m.rev < 1 ==> Allowed(m, Shadowsocks) && Allowed(m, Fronted)
    ensures m.rev == 1 ==> (Allowed(m, Shadowsocks) <==> m.shadowsocks) && (Allowed(m, Fronted) <==> m.fronted)
    ensures m.rev < METHODS_REV ==> (Allowed(m, DirectIp) <==> m.directIp)
  {
    hide EnabledMethods;
    var first := if m.rev >= 1 then m else m.(shadowsocks := true, fronted := true);
    EnabledAre((if m.rev >= 2 then first else first.(reality := true)).(rev := METHODS_REV));
    EnabledAre(Normalize(m));
  }

  // ---- The search ----

  /** `first` is what the first of `methods` that answers answered. */
  ghost predicate FirstAnswer<P>(methods: seq<Method>, attempt: Method -> Option<P>, first: Option<P>) {
    if first.None? then forall i :: 0 <= i < |methods| ==> attempt(methods[i]).None?
    else exists i :: 0 <= i < |methods| && attempt(methods[i]) == first && forall j :: 0 <= j < i ==> attempt(methods[j]).None?
  }

  lemma FirstAnswerIsUnique<P>(methods: seq<Method>, attempt: Method -> Option<P>, a: Option<P>, b: Option<P>)
    requires FirstAnswer(methods, attempt, a) && FirstAnswer(methods, attempt, b)
    ensures a == b
  {
  }

  method FirstWorkingMethod<P>(methods: seq<Method>, attempt: Method -> Option<P>) returns (found: Option<P>)
    ensures FirstAnswer(methods, attempt, found)
  {
    for i := 0 to |methods|
      invariant forall j :: 0 <= j < i ==> attempt(methods[j]).None?
    {
      found := attempt(methods[i]);
      if found.Some? {
        return;
      }
    }
    found := None;
  }

  /** `reseed` is absent when the dead drop is off; `after` is how the methods answer once it was spent. */
  method SearchHubMethods<P>(methods: seq<Method>, attempt: Method -> Option<P>, reseed: Option<bool>, after: Method -> Option<P>)
      returns (found: Option<P>, reseeded: bool)
    ensures reseeded <==> FirstAnswer(methods, attempt, None) && reseed.Some?
    ensures if reseeded && reseed.value then FirstAnswer(methods, after, found) else FirstAnswer(methods, attempt, found)
  {
    found := FirstWorkingMethod(methods, attempt);
    reseeded := found.None? && reseed.Some?;
    if found.Some? {
      return;
    }
    if reseeded && reseed.value {
      found := FirstWorkingMethod(methods, after);
    }
  }

  // ---- The route in use ----

  const COOLDOWN := 20_000
  const FAILURE_LIMIT := 2

  /** `activeHubPath` and its tracker; the times are milliseconds. */
  datatype Hub = Hub(active: Option<nat>, failedAt: Option<int>, streak: int, generation: nat)

  const NO_ROUTE := Hub(None, None, 0, 0)

  function RetryIn(h: Hub, now: int): nat {
    if h.failedAt.None? || now - h.failedAt.value >= COOLDOWN then 0 else COOLDOWN - (now - h.failedAt.value)
  }

  function Failure(h: Hub, route: nat): (Hub, bool) {
    if h.active != Some(route) then (h, false)
    else if h.streak + 1 < FAILURE_LIMIT then (h.(streak := h.streak + 1), false)
    else (h.(active := None, streak := 0), true)
  }

  function Success(h: Hub): Hub {
    h.(streak := 0, failedAt := None)
  }

  function Invalidated(h: Hub): Hub {
    h.(active := None, generation := h.generation + 1, streak := 0, failedAt := None)
  }

  class HubClient {
    var activeHubPath: Option<nat>
    var failedAt: Option<int>
    var streak: int
    var generation: nat

    ghost function State(): Hub
      reads this
    {
      Hub(activeHubPath, failedAt, streak, generation)
    }

    constructor ()
      ensures State() == NO_ROUTE
    {
      activeHubPath, failedAt, streak, generation := None, None, 0, 0;
    }

    method Wait(now: int) returns (wait: nat)
      ensures wait == RetryIn(State(), now)
    {
      if failedAt.None? {
        return 0;
      }
      var left := COOLDOWN - (now - failedAt.value);
      wait := if left > 0 then left else 0;
    }

    method SearchFailed(now: int)
      modifies this`failedAt
      ensures State() == old(State()).(failedAt := Some(now))
    {
      failedAt := Some(now);
    }

    method RequestSucceeded()
      modifies this
      ensures State() == Success(old(State()))
    {
      streak := 0;
      failedAt := None;
    }

    method TrackFailure() returns (drop: bool)
      modifies this`streak
      ensures drop <==> old(streak) + 1 >= FAILURE_LIMIT
      ensures streak == if drop then 0 else old(streak) + 1
    {
      streak := streak + 1;
      if streak < FAILURE_LIMIT {
        return false;
      }
      streak := 0;
      drop := true;
    }

    /** The caller closes a route it is told was dropped. */
    method RequestFailed(route: nat) returns (dropped: bool)
      modifies this
      ensures (State(), dropped) == Failure(old(State()), route)
    {
      if activeHubPath != Some(route) {
        return false;
      }
      dropped := TrackFailure();
      if dropped {
        activeHubPath := None;
      }
    }

    /** The caller closes the route it is handed. */
    method Invalidate() returns (path: Option<nat>)
      modifies this
      ensures State() == Invalidated(old(State())) && path == old(activeHubPath)
    {
      path := activeHubPath;
      activeHubPath := None;
      generation, streak, failedAt := generation + 1, 0, None;
    }

    /** A search's landing: its answer is discarded once the plan has changed. */
    method Land(began: nat, found: Option<nat>, now: int) returns (discarded: bool)
      modifies this
      ensures discarded <==> old(generation) != began
      ensures State() ==
        if discarded then old(State())
        else if found.None? then old(State()).(failedAt := Some(now))
        else old(State()).(active := found)
    {
      if generation != began {
        return true;
      }
      discarded := false;
      if found.None? {
        SearchFailed(now);
        return;
      }
      activeHubPath := found;
    }
  }
}
