/** Every interleaving of route searches, hub requests and settings changes. The search lock admits one
    searcher; a changed plan is invalidated by its own thread some time after the settings moved. */
module HubRuns {
  import opened Support
  import opened HubRoute

  /** What happened to the route in use, oldest first. */
  datatype Note =
    | SearchBegan(at: int)
    | SearchedInVain(at: int)
    | Published(route: nat, began: nat)
    | FailedOn(route: nat)
    | Dropped(route: nat)
    | Succeeded
    | PlanChanged

  /** Where the holder of the search lock is: at the top of its loop, past the wipe check, before and
      after reading the settings, and with an answer to land. `began` is where the log stood. */
  datatype SearchPc =
    | Top
    | Looking
    | Snapping(generation: nat, began: nat)
    | Searching(generation: nat, began: nat, methods: Methods)
    | Landing(generation: nat, began: nat, methods: Methods, found: Option<nat>)

  datatype Resolver = Resolver(wipe: nat, attempt: nat, pc: SearchPc)

  /** A request on a route, answered or not. */
  datatype Request = Request(route: nat, answered: bool)

  datatype World = World(
    hub: Hub,
    settings: Methods,
    wipeEpoch: nat,
    resolver: Option<Resolver>,
    requests: seq<Request>,
    invalidations: nat,
    paths: seq<Method>,
    closing: multiset<nat>,
    closed: multiset<nat>,
    log: seq<Note>)

  function Start(settings: Methods): World {
    World(NO_ROUTE, settings, 0, None, [], 0, [], multiset{}, multiset{}, [])
  }

  datatype Event =
    | Resolve(wipe: nat)
    | CheckWipe
    | Look(now: int)
    | ReadSettings
    | Answer(found: Option<Method>)
    | Land(now: int)
    | Send
    | Fail(request: nat)
    | Succeed(request: nat)
    | ChangeSettings(methods: Methods)
    | Wipe
    | NetworkChanged
    | Invalidate
    | Close(path: nat)

  predicate Enabled(w: World, e: Event) {
    match e
    case Resolve(wipe) => w.resolver.None? && wipe <= w.wipeEpoch
    case CheckWipe => w.resolver.Some? && w.resolver.value.pc.Top?
    case Look(_) => w.resolver.Some? && w.resolver.value.pc.Looking?
    case ReadSettings => w.resolver.Some? && w.resolver.value.pc.Snapping?
    case Answer(found) => w.resolver.Some? && w.resolver.value.pc.Searching?
      && (found.Some? ==> Allowed(w.resolver.value.pc.methods, found.value))
    case Land(_) => w.resolver.Some? && w.resolver.value.pc.Landing?
    case Send => w.hub.active.Some?
    case Fail(i) => i < |w.requests| && !w.requests[i].answered
    case Succeed(i) => i < |w.requests| && !w.requests[i].answered
    case Invalidate => w.invalidations > 0
    case Close(p) => p in w.closing
    case _ => true
  }

  function Moved(w: World, pc: SearchPc): World
    requires w.resolver.Some?
  {
    w.(resolver := Some(w.resolver.value.(pc := pc)))
  }

  function Noted(w: World, note: Note): World {
    w.(log := w.log + [note])
  }

  function Discarding(w: World, path: Option<nat>): World {
    if path.Some? then w.(closing := w.closing + multiset{path.value}) else w
  }

  function Looked(w: World, now: int): World
    requires w.resolver.Some?
  {
    if w.hub.active.Some? || RetryIn(w.hub, now) > 0 then w.(resolver := None)
    else Noted(Moved(w, Snapping(w.hub.generation, |w.log|)), SearchBegan(now))
  }

  function Answered(w: World, found: Option<Method>): World
    requires w.resolver.Some? && w.resolver.value.pc.Searching?
  {
    var pc := w.resolver.value.pc;
    if found.None? then Moved(w, Landing(pc.generation, pc.began, pc.methods, None))
    else Moved(w, Landing(pc.generation, pc.began, pc.methods, Some(|w.paths|))).(paths := w.paths + [found.value])
  }

  function Landed(w: World, now: int): World
    requires w.resolver.Some? && w.resolver.value.pc.Landing?
  {
    var r := w.resolver.value;
    if w.hub.generation != r.pc.generation
    then Discarding(w, r.pc.found).(resolver := Some(Resolver(r.wipe, r.attempt + 1, Top)))
    else if r.pc.found.None?
    then Noted(w, SearchedInVain(now)).(resolver := None, hub := w.hub.(failedAt := Some(now)))
    else Noted(w, Published(r.pc.found.value, r.pc.began)).(resolver := None, hub := w.hub.(active := r.pc.found))
  }

  function Failed(w: World, route: nat): World {
    var (hub, drop) := Failure(w.hub, route);
    if drop then Discarding(Noted(Noted(w, FailedOn(route)), Dropped(route)), Some(route)).(hub := hub)
    else if w.hub.active == Some(route) then Noted(w, FailedOn(route)).(hub := hub)
    else w
  }

  function Next(w: World, e: Event): World
    requires Enabled(w, e)
  {
    match e
    case Resolve(wipe) => w.(resolver := Some(Resolver(wipe, 0, Top)))
    case CheckWipe =>
      if w.resolver.value.attempt >= 2 || w.resolver.value.wipe != w.wipeEpoch then w.(resolver := None) else Moved(w, Looking)
    case Look(now) => Looked(w, now)
    case ReadSettings => Moved(w, Searching(w.resolver.value.pc.generation, w.resolver.value.pc.began, w.settings))
    case Answer(found) => Answered(w, found)
    case Land(now) => Landed(w, now)
    case Send => w.(requests := w.requests + [Request(w.hub.active.value, false)])
    case Fail(i) => Failed(w, w.requests[i].route).(requests := w.requests[i := w.requests[i].(answered := true)])
    case Succeed(i) =>
      Noted(w, Succeeded).(hub := Success(w.hub), requests := w.requests[i := w.requests[i].(answered := true)])
    case ChangeSettings(methods) =>
      w.(settings := methods, invalidations := w.invalidations + if methods == w.settings then 0 else 1)
    case Wipe => w.(settings := DEFAULT_METHODS, wipeEpoch := w.wipeEpoch + 1, invalidations := w.invalidations + 1)
    case NetworkChanged => w.(invalidations := w.invalidations + 1)
    case Invalidate =>
      Discarding(Noted(w, PlanChanged), w.hub.active).(hub := Invalidated(w.hub), invalidations := w.invalidations - 1)
    case Close(p) => w.(closing := w.closing - multiset{p}, closed := w.closed + multiset{p})
  }

  // ---- Reading the log ----

  predicate Forgives(note: Note) {
    note.Succeeded? || note.Published? || note.PlanChanged? || note.Dropped?
  }

  /** The failures on `route` since it was published or last forgiven. */
  function Fails(log: seq<Note>, route: nat): nat {
    if log == [] then 0
    else
      var note := log[|log| - 1];
      if Forgives(note) then 0 else Fails(log[..|log| - 1], route) + if note == FailedOn(route) then 1 else 0
  }

  /** When the last search that found nothing landed, unless a success or a change of plan followed. */
  function LastInVain(log: seq<Note>): Option<int> {
    if log == [] then None
    else
      match log[|log| - 1]
      case SearchedInVain(at) => Some(at)
      case Succeeded => None
      case PlanChanged => None
      case _ => LastInVain(log[..|log| - 1])
  }

  ghost predicate SamePlan(log: seq<Note>, from: nat) {
    forall i :: from <= i < |log| ==> log[i] != PlanChanged
  }

  /** The entry at `i` was earned by what precedes it. */
  ghost predicate Earned(log: seq<Note>, i: nat)
    requires i < |log|
  {
    match log[i]
    case SearchBegan(at) => LastInVain(log[..i]).Some? ==> at - LastInVain(log[..i]).value >= COOLDOWN
    case Published(_, began) => began < i && log[began].SearchBegan? && SamePlan(log[..i], began)
    case Dropped(route) => i > 0 && log[i - 1] == FailedOn(route) && Fails(log[..i], route) == FAILURE_LIMIT
    case _ => true
  }

  ghost predicate AllEarned(log: seq<Note>) {
    forall i: nat :: i < |log| ==> Earned(log, i)
  }

  lemma EarnedGrows(log: seq<Note>, note: Note)
    requires AllEarned(log) && Earned(log + [note], |log|)
    ensures AllEarned(log + [note])
  {
    hide Fails, LastInVain, SamePlan;
    forall i: nat | i < |log + [note]| ensures Earned(log + [note], i) {
      if i < |log| {
        assert Earned(log, i);
        assert (log + [note])[..i] == log[..i];
      }
    }
  }

  lemma LogGrows(log: seq<Note>, note: Note, route: nat)
    ensures Fails(log + [note], route) ==
      if Forgives(note) then 0 else Fails(log, route) + if note == FailedOn(route) then 1 else 0
    ensures LastInVain(log + [note]) ==
      match note { case SearchedInVain(at) => Some(at) case Succeeded => None case PlanChanged => None case _ => LastInVain(log) }
  {
    assert (log + [note])[..|log|] == log;
  }

  // ---- The invariant ----

  /** The tracker is what the log says. */
  ghost predicate Tracked(hub: Hub, log: seq<Note>) {
    && (forall route: nat :: Fails(log, route) == if hub.active == Some(route) then hub.streak else 0)
    && 0 <= hub.streak < FAILURE_LIMIT
    && (hub.active.None? ==> hub.streak == 0)
    && hub.failedAt == LastInVain(log)
  }

  /** The route in use is allowed by the settings, unless an invalidation is still to come. */
  ghost predicate RouteAllowed(active: Option<nat>, paths: seq<Method>, settings: Methods, invalidations: nat) {
    active.Some? ==> active.value < |paths| && (invalidations > 0 || Allowed(settings, paths[active.value]))
  }

  /** A search whose plan still stands has no route beside it, and read the settings now in force unless
      an invalidation is still to come. */
  ghost predicate SearchSound(pc: SearchPc, hub: Hub, settings: Methods, invalidations: nat, paths: seq<Method>, log: seq<Note>) {
    && (pc.Landing? && pc.found.Some? ==> pc.found.value < |paths| && Allowed(pc.methods, paths[pc.found.value]))
    && (pc.Snapping? || pc.Searching? || pc.Landing? ==>
         && pc.generation <= hub.generation && hub.active.None?
         && pc.began < |log| && log[pc.began].SearchBegan?
         && (pc.generation == hub.generation ==>
              && SamePlan(log, pc.began)
              && (pc.Searching? || pc.Landing? ==> pc.methods == settings || invalidations > 0)))
  }

  function One(path: Option<nat>): multiset<nat> {
    if path.Some? then multiset{path.value} else multiset{}
  }

  function Held(resolver: Option<Resolver>): Option<nat> {
    if resolver.Some? && resolver.value.pc.Landing? then resolver.value.pc.found else None
  }

  /** Every path a search ever returned, as often as it is in use, in hand, about to be closed or closed. */
  function Whereabouts(active: Option<nat>, resolver: Option<Resolver>, closing: multiset<nat>, closed: multiset<nat>): multiset<nat> {
    One(active) + One(Held(resolver)) + closing + closed
  }

  ghost predicate EachOnce(all: multiset<nat>, n: nat) {
    forall p: nat :: all[p] == if p < n then 1 else 0
  }

  ghost predicate Inv(w: World) {
    && Tracked(w.hub, w.log)
    && AllEarned(w.log)
    && RouteAllowed(w.hub.active, w.paths, w.settings, w.invalidations)
    && (w.resolver.Some? ==> SearchSound(w.resolver.value.pc, w.hub, w.settings, w.invalidations, w.paths, w.log))
    && EachOnce(Whereabouts(w.hub.active, w.resolver, w.closing, w.closed), |w.paths|)
  }

  // ---- Every step keeps the invariant ----

  /** The tracker after one more entry. */
  ghost function After(hub: Hub, note: Note): Hub {
    match note
    case SearchBegan(_) => hub
    case SearchedInVain(at) => hub.(failedAt := Some(at))
    case Published(route, _) => hub.(active := Some(route))
    case FailedOn(_) => hub.(streak := hub.streak + 1)
    case Dropped(_) => hub.(active := None, streak := 0)
    case Succeeded => Success(hub)
    case PlanChanged => Invalidated(hub)
  }

  lemma TrackedGrows(hub: Hub, log: seq<Note>, note: Note)
    requires Tracked(hub, log)
    requires note.Published? ==> hub.active.None?
    requires note.FailedOn? ==> hub.active == Some(note.route) && hub.streak + 1 < FAILURE_LIMIT
    ensures Tracked(After(hub, note), log + [note])
  {
    forall route: nat
      ensures Fails(log + [note], route) == if Forgives(note) then 0 else Fails(log, route) + if note == FailedOn(route) then 1 else 0
    {
      LogGrows(log, note, route);
    }
    LogGrows(log, note, 0);
    hide Fails, LastInVain;
  }

  lemma TrackedDrop(hub: Hub, log: seq<Note>, route: nat)
    requires Tracked(hub, log) && hub.active == Some(route) && hub.streak + 1 >= FAILURE_LIMIT
    ensures Tracked(hub.(active := None, streak := 0), log + [FailedOn(route)] + [Dropped(route)])
    ensures Fails(log + [FailedOn(route)], route) == FAILURE_LIMIT
  {
    var failed := log + [FailedOn(route)];
    forall p: nat ensures Fails(failed + [Dropped(route)], p) == 0 { LogGrows(failed, Dropped(route), p); }
    LogGrows(failed, Dropped(route), 0);
    LogGrows(log, FailedOn(route), route);
    hide Fails, LastInVain;
  }

  /** An entry that is no change of plan leaves a search as sound as it was. */
  lemma SoundGrows(pc: SearchPc, hub: Hub, after: Hub, settings: Methods, invalidations: nat, paths: seq<Method>, log: seq<Note>, note: Note)
    requires SearchSound(pc, hub, settings, invalidations, paths, log) && note != PlanChanged
    requires after.generation == hub.generation && (after.active.None? || after.active == hub.active)
    ensures SearchSound(pc, after, settings, invalidations, paths, log + [note])
  {
  }

  lemma LookKeeps(w: World, now: int)
    requires Inv(w) && Enabled(w, Look(now))
    ensures Inv(Next(w, Look(now)))
  {
    if w.hub.active.None? && RetryIn(w.hub, now) == 0 {
      var note := SearchBegan(now);
      assert (w.log + [note])[..|w.log|] == w.log;
      EarnedGrows(w.log, note);
      TrackedGrows(w.hub, w.log, note);
    }
    hide AllEarned, Tracked, RouteAllowed, EachOnce;
  }

  lemma AnswerKeeps(w: World, found: Option<Method>)
    requires Inv(w) && Enabled(w, Answer(found))
    ensures Inv(Next(w, Answer(found)))
  {
    AnswerIsHeld(w, found);
    hide AllEarned, Tracked, Allowed, EachOnce, Whereabouts;
  }

  lemma AnswerIsHeld(w: World, found: Option<Method>)
    requires Enabled(w, Answer(found))
    requires EachOnce(Whereabouts(w.hub.active, w.resolver, w.closing, w.closed), |w.paths|)
    ensures var v := Next(w, Answer(found)); EachOnce(Whereabouts(v.hub.active, v.resolver, v.closing, v.closed), |v.paths|)
  {
    var v := Next(w, Answer(found));
    var held := Held(v.resolver);
    assert Held(w.resolver).None? && held == if found.Some? then Some(|w.paths|) else None;
    assert |v.paths| == |w.paths| + if found.Some? then 1 else 0;
    assert v.hub == w.hub && v.closing == w.closing && v.closed == w.closed;
    NewHeld(One(w.hub.active), One(held), w.closing, w.closed);
    hide Answered, EachOnce;
    if found.Some? {
      OneMorePath(Whereabouts(w.hub.active, w.resolver, w.closing, w.closed), |w.paths|);
    } else {
      assert Whereabouts(w.hub.active, w.resolver, w.closing, w.closed) + multiset{}
          == Whereabouts(w.hub.active, w.resolver, w.closing, w.closed);
    }
  }

  lemma OneMorePath(all: multiset<nat>, n: nat)
    requires EachOnce(all, n)
    ensures EachOnce(all + multiset{n}, n + 1)
  {
  }

  lemma NewHeld(a: multiset<nat>, held: multiset<nat>, b: multiset<nat>, c: multiset<nat>)
    ensures a + held + b + c == (a + multiset{} + b + c) + held
  {
  }

  lemma ActiveIsDiscarded(active: Option<nat>, resolver: Option<Resolver>, closing: multiset<nat>, closed: multiset<nat>)
    ensures Whereabouts(active, resolver, closing, closed) == Whereabouts(None, resolver, closing + One(active), closed)
  {
    MoveOver(One(active), One(Held(resolver)), closing, closed);
  }

  lemma MoveOver(a: multiset<nat>, held: multiset<nat>, b: multiset<nat>, c: multiset<nat>)
    ensures a + held + b + c == multiset{} + held + (b + a) + c
  {
  }

  lemma LandWhereabouts(w: World, now: int)
    requires Enabled(w, Land(now)) && (w.hub.generation == w.resolver.value.pc.generation ==> w.hub.active.None?)
    ensures var v := Next(w, Land(now));
      Whereabouts(v.hub.active, v.resolver, v.closing, v.closed) == Whereabouts(w.hub.active, w.resolver, w.closing, w.closed)
  {
  }

  lemma LandKeeps(w: World, now: int)
    requires Inv(w) && Enabled(w, Land(now))
    ensures Inv(Next(w, Land(now)))
  {
    LandWhereabouts(w, now);
    if w.hub.generation == w.resolver.value.pc.generation {
      LandsOnTheLog(w, now);
      hide AllEarned, Tracked, EachOnce, Whereabouts, Allowed, SamePlan;
    } else {
      hide AllEarned, Tracked, EachOnce, Whereabouts, RouteAllowed, SamePlan;
    }
  }

  lemma LandingNote(w: World, now: int) returns (note: Note)
    requires Inv(w) && Enabled(w, Land(now)) && w.hub.generation == w.resolver.value.pc.generation
    ensures note.Published? || note.SearchedInVain?
    ensures note.Published? ==> w.hub.active.None?
    ensures Earned(w.log + [note], |w.log|)
    ensures var v := Next(w, Land(now)); v.log == w.log + [note] && v.hub == After(w.hub, note)
  {
    hide AllEarned, Tracked, RouteAllowed, EachOnce, Allowed, Fails, LastInVain;
    var pc := w.resolver.value.pc;
    note := if pc.found.Some? then Published(pc.found.value, pc.began) else SearchedInVain(now);
    assert (w.log + [note])[..|w.log|] == w.log;
  }

  lemma LandsOnTheLog(w: World, now: int)
    requires Inv(w) && Enabled(w, Land(now)) && w.hub.generation == w.resolver.value.pc.generation
    ensures var v := Next(w, Land(now)); AllEarned(v.log) && Tracked(v.hub, v.log)
  {
    var note := LandingNote(w, now);
    EarnedGrows(w.log, note);
    TrackedGrows(w.hub, w.log, note);
    hide AllEarned, Tracked, SearchSound, RouteAllowed, EachOnce, Earned, Next, After;
  }

  lemma FailKeeps(w: World, i: nat)
    requires Inv(w) && Enabled(w, Fail(i))
    ensures Inv(Next(w, Fail(i)))
  {
    var route := w.requests[i].route;
    var v := Next(w, Fail(i));
    ActiveIsDiscarded(w.hub.active, w.resolver, w.closing, w.closed);
    if w.hub.active == Some(route) {
      var failed := w.log + [FailedOn(route)];
      EarnedGrows(w.log, FailedOn(route));
      if w.hub.streak + 1 < FAILURE_LIMIT {
        TrackedGrows(w.hub, w.log, FailedOn(route));
      } else {
        TrackedDrop(w.hub, w.log, route);
        assert (failed + [Dropped(route)])[..|failed|] == failed;
        EarnedGrows(failed, Dropped(route));
      }
      if w.resolver.Some? {
        SoundGrows(w.resolver.value.pc, w.hub, v.hub, w.settings, w.invalidations, w.paths, w.log, FailedOn(route));
        if v.hub.active.None? {
          SoundGrows(w.resolver.value.pc, v.hub, v.hub, w.settings, w.invalidations, w.paths, failed, Dropped(route));
        }
      }
    }
    hide AllEarned, Tracked, SearchSound, EachOnce, Whereabouts, Allowed;
  }

  lemma SucceedKeeps(w: World, i: nat)
    requires Inv(w) && Enabled(w, Event.Succeed(i))
    ensures Inv(Next(w, Event.Succeed(i)))
  {
    EarnedGrows(w.log, Succeeded);
    TrackedGrows(w.hub, w.log, Succeeded);
    if w.resolver.Some? {
      SoundGrows(w.resolver.value.pc, w.hub, Success(w.hub), w.settings, w.invalidations, w.paths, w.log, Succeeded);
    }
    hide AllEarned, Tracked, SearchSound, EachOnce, RouteAllowed;
  }

  lemma StaleIsSound(pc: SearchPc, hub: Hub, settings: Methods, invalidations: nat, paths: seq<Method>, log: seq<Note>)
    requires SearchSound(pc, hub, settings, invalidations, paths, log) && invalidations > 0
    ensures SearchSound(pc, Invalidated(hub), settings, invalidations - 1, paths, log + [PlanChanged])
  {
    hide SamePlan, Allowed;
  }

  /** Discarding the route in use makes every search begun before stale. */
  lemma InvalidateKeeps(w: World)
    requires Inv(w) && Enabled(w, Invalidate)
    ensures Inv(Next(w, Invalidate))
  {
    var v := Next(w, Invalidate);
    EarnedGrows(w.log, PlanChanged);
    TrackedGrows(w.hub, w.log, PlanChanged);
    ActiveIsDiscarded(w.hub.active, w.resolver, w.closing, w.closed);
    assert w.hub.active.None? ==> w.closing + One(w.hub.active) == w.closing;
    if w.resolver.Some? {
      StaleIsSound(w.resolver.value.pc, w.hub, w.settings, w.invalidations, w.paths, w.log);
    }
    hide AllEarned, Tracked, EachOnce, Whereabouts, SearchSound;
  }

  lemma CloseKeeps(w: World, p: nat)
    requires Inv(w) && Enabled(w, Close(p))
    ensures Inv(Next(w, Close(p)))
  {
    ClosesOne(One(w.hub.active), One(Held(w.resolver)), w.closing, w.closed, p);
    hide AllEarned, Tracked, SearchSound, EachOnce, RouteAllowed, One, Held;
  }

  lemma ClosesOne(a: multiset<nat>, held: multiset<nat>, b: multiset<nat>, c: multiset<nat>, p: nat)
    requires p in b
    ensures a + held + (b - multiset{p}) + (c + multiset{p}) == a + held + b + c
  {
  }

  /** Steps that touch neither the route in use nor the log. */
  lemma QuietKeeps(w: World, e: Event)
    requires Inv(w) && Enabled(w, e)
    requires e.Resolve? || e.CheckWipe? || e.ReadSettings?
    ensures Inv(Next(w, e))
  {
    assert Held(Next(w, e).resolver) == Held(w.resolver);
    hide AllEarned, Tracked, EachOnce, Allowed, SamePlan, RouteAllowed, Held;
  }

  lemma SettingsKeep(w: World, e: Event)
    requires Inv(w) && Enabled(w, e)
    requires e.Send? || e.ChangeSettings? || e.Wipe? || e.NetworkChanged?
    ensures Inv(Next(w, e))
  {
    hide AllEarned, Tracked, EachOnce, Allowed, SamePlan, Whereabouts;
  }

  lemma NextKeeps(w: World, e: Event)
    requires Inv(w) && Enabled(w, e)
    ensures Inv(Next(w, e))
  {
    match e
    case Look(now) => LookKeeps(w, now);
    case Answer(found) => AnswerKeeps(w, found);
    case Land(now) => LandKeeps(w, now);
    case Fail(i) => FailKeeps(w, i);
    case Succeed(i) => SucceedKeeps(w, i);
    case Invalidate => InvalidateKeeps(w);
    case Close(p) => CloseKeeps(w, p);
    case Resolve(_) => QuietKeeps(w, e);
    case CheckWipe => QuietKeeps(w, e);
    case ReadSettings => QuietKeeps(w, e);
    case _ => SettingsKeep(w, e);
  }

  // ---- Main results over runs ----

  ghost predicate Runs(w: World, events: seq<Event>, v: World)
    decreases |events|
  {
    if events == [] then v == w
    else Enabled(w, events[0]) && Runs(Next(w, events[0]), events[1..], v)
  }

  lemma StartInv(settings: Methods)
    ensures Inv(Start(settings))
  {
  }

  lemma {:induction false} RunsKeepInv(w: World, events: seq<Event>, v: World)
    requires Inv(w) && Runs(w, events, v)
    ensures Inv(v)
    decreases |events|
  {
    if events != [] {
      hide Inv, Next, Enabled;
      NextKeeps(w, events[0]);
      RunsKeepInv(Next(w, events[0]), events[1..], v);
    }
  }

  /** The route in use is one the settings in force allow, or the thread that changed them has its
      invalidation still to run; so with none outstanding the cleartext method is in use only while it
      is switched on. */
  lemma RouteRespectsTheSwitches(settings: Methods, events: seq<Event>, w: World)
    requires Runs(Start(settings), events, w) && w.hub.active.Some? && w.invalidations == 0
    ensures w.hub.active.value < |w.paths| && Allowed(w.settings, w.paths[w.hub.active.value])
    ensures w.paths[w.hub.active.value] == Normal ==> w.settings.normal
  {
    StartInv(settings);
    RunsKeepInv(Start(settings), events, w);
    NormalizeKeepsSwitches(w.settings);
  }

  /** A route is published only by a search that began after the last change of plan. */
  lemma OldSearchNeverPublishes(settings: Methods, events: seq<Event>, w: World, i: nat)
    requires Runs(Start(settings), events, w) && i < |w.log| && w.log[i].Published?
    ensures w.log[i].began < i && w.log[w.log[i].began].SearchBegan?
    ensures forall k :: w.log[i].began <= k < i ==> w.log[k] != PlanChanged
  {
    StartInv(settings);
    RunsKeepInv(Start(settings), events, w);
    assert Earned(w.log, i);
    assert forall k :: 0 <= k < i ==> w.log[..i][k] == w.log[k];
  }

  /** Every path a search returned is in exactly one place: in use, in the searcher's hand, about to be
      closed, or closed once. */
  lemma PathsAreConserved(settings: Methods, events: seq<Event>, w: World, p: nat)
    requires Runs(Start(settings), events, w) && p < |w.paths|
    ensures (if w.hub.active == Some(p) then 1 else 0) + (if Held(w.resolver) == Some(p) then 1 else 0)
      + w.closing[p] + w.closed[p] == 1
  {
    StartInv(settings);
    RunsKeepInv(Start(settings), events, w);
    assert Whereabouts(w.hub.active, w.resolver, w.closing, w.closed)[p] == 1;
  }

  /** Publishing never overwrites a route. */
  lemma LandingFindsNoRoute(settings: Methods, events: seq<Event>, w: World, now: int)
    requires Runs(Start(settings), events, w) && Enabled(w, Land(now))
    ensures w.hub.active.None?
  {
    StartInv(settings);
    RunsKeepInv(Start(settings), events, w);
  }

  lemma {:induction false} FailsAreRecent(log: seq<Note>, route: nat) returns (k: nat)
    requires Fails(log, route) > 0
    ensures k < |log| && log[k] == FailedOn(route)
    ensures forall j :: k <= j < |log| ==> !Forgives(log[j])
    ensures Fails(log[..k], route) == Fails(log, route) - 1
  {
    var last := log[|log| - 1];
    if last == FailedOn(route) {
      k := |log| - 1;
    } else {
      k := FailsAreRecent(log[..|log| - 1], route);
      assert log[..|log| - 1][..k] == log[..k];
    }
  }

  /** A route is dropped for failures only by its second failed request, with no success recorded, no
      change of plan and no other publication between the two. */
  lemma DroppedAfterTwoFailures(settings: Methods, events: seq<Event>, w: World, d: nat)
    requires Runs(Start(settings), events, w) && d < |w.log| && w.log[d].Dropped?
    ensures d > 0 && w.log[d - 1] == FailedOn(w.log[d].route)
    ensures exists k :: 0 <= k < d - 1 && w.log[k] == FailedOn(w.log[d].route) && (forall j :: k <= j < d ==> !Forgives(w.log[j]))
  {
    StartInv(settings);
    RunsKeepInv(Start(settings), events, w);
    assert Earned(w.log, d);
    var log := w.log[..d];
    var last := FailsAreRecent(log, w.log[d].route);
    var k := FailsAreRecent(log[..last], w.log[d].route);
    assert forall j :: 0 <= j < d ==> log[j] == w.log[j];
    assert forall j :: 0 <= j < last ==> log[..last][j] == w.log[j];
  }

  /** A fully failed search is believed: no search begins within the cooldown after it, unless a request
      succeeded or the plan changed in the meantime. */
  lemma NoSearchInCooldown(settings: Methods, events: seq<Event>, w: World, i: nat)
    requires Runs(Start(settings), events, w) && i < |w.log| && w.log[i].SearchBegan?
    ensures LastInVain(w.log[..i]).Some? ==> w.log[i].at - LastInVain(w.log[..i]).value >= COOLDOWN
  {
    StartInv(settings);
    RunsKeepInv(Start(settings), events, w);
    assert Earned(w.log, i);
  }

  // ---- A wipe that misses the check ----

  function Wipes(events: seq<Event>): nat {
    if events == [] then 0 else (if events[0].Wipe? then 1 else 0) + Wipes(events[1..])
  }

  lemma {:induction false} WipesMoveTheEpoch(w: World, events: seq<Event>, v: World)
    requires Runs(w, events, v)
    ensures v.wipeEpoch == w.wipeEpoch + Wipes(events)
    decreases |events|
  {
    if events != [] {
      assert Next(w, events[0]).wipeEpoch == w.wipeEpoch + if events[0].Wipe? then 1 else 0;
      hide Next, Enabled;
      WipesMoveTheEpoch(Next(w, events[0]), events[1..], v);
    }
  }

  ghost predicate NoOtherRequest(events: seq<Event>) {
    forall i :: 0 <= i < |events| ==> !events[i].Resolve?
  }

  /** The holder of the search lock keeps the wipe epoch it came with. */
  lemma {:induction false} RequestKeepsItsEpoch(w: World, events: seq<Event>, v: World)
    requires Runs(w, events, v) && NoOtherRequest(events) && v.resolver.Some?
    ensures w.resolver.Some? && v.resolver.value.wipe == w.resolver.value.wipe
    decreases |events|
  {
    if events != [] {
      var n := Next(w, events[0]);
      assert !events[0].Resolve?;
      assert n.resolver.Some? ==> w.resolver.Some? && n.resolver.value.wipe == w.resolver.value.wipe;
      hide Next, Enabled;
      RequestKeepsItsEpoch(n, events[1..], v);
    }
  }

  /** A request past its wipe check, for as long as it holds the lock, belongs to a session before a
      wipe if and only if a wipe ran since that check. */
  lemma OnlyAWipeOvertakes(w: World, events: seq<Event>, v: World)
    requires Runs(w, events, v) && NoOtherRequest(events)
    requires w.resolver.Some? && w.resolver.value.pc.Looking? && w.resolver.value.wipe == w.wipeEpoch
    requires v.resolver.Some?
    ensures v.resolver.value.wipe == v.wipeEpoch <==> Wipes(events) == 0
  {
    WipesMoveTheEpoch(w, events, v);
    RequestKeepsItsEpoch(w, events, v);
  }

  /** A request that comes to its check after a wipe never gets past it: it stays there or ends. */
  lemma {:induction false} WipedRequestEndsAtItsCheck(w: World, events: seq<Event>, v: World)
    requires Runs(w, events, v) && NoOtherRequest(events)
    requires w.resolver.Some? ==> w.resolver.value.pc.Top? && w.resolver.value.wipe < w.wipeEpoch
    ensures v.resolver.Some? ==> v.resolver.value.pc.Top? && v.resolver.value.wipe < v.wipeEpoch
    ensures CheckWipe in events ==> v.resolver.None?
    decreases |events|
  {
    if events != [] {
      var n := Next(w, events[0]);
      assert !events[0].Resolve?;
      assert events[0].CheckWipe? ==> n.resolver.None?;
      assert n.resolver.Some? ==> n.resolver.value.pc.Top? && n.resolver.value.wipe < n.wipeEpoch;
      hide Next;
      WipedRequestEndsAtItsCheck(n, events[1..], v);
      if events[0].CheckWipe? {
        StaysEnded(n, events[1..], v);
      }
    }
  }

  lemma {:induction false} StaysEnded(w: World, events: seq<Event>, v: World)
    requires Runs(w, events, v) && NoOtherRequest(events) && w.resolver.None?
    ensures v.resolver.None?
    decreases |events|
  {
    if events != [] {
      assert !events[0].Resolve?;
      assert Next(w, events[0]).resolver.None?;
      hide Next;
      StaysEnded(Next(w, events[0]), events[1..], v);
    }
  }

  ghost predicate SearchesPastAWipe(settings: Methods, events: seq<Event>, w: World) {
    && Runs(Start(settings), events, w)
    && w.resolver.Some? && w.resolver.value.pc.Searching? && w.resolver.value.wipe < w.wipeEpoch
    && w.resolver.value.pc.methods == DEFAULT_METHODS
  }

  ghost predicate PublishesWhatItFinds(w: World, v: World) {
    Runs(w, [Answer(Some(DirectIp)), Land(0)], v) && v.hub.active == Some(|w.paths|)
  }

  /** A request past its check is not ended by a wipe: it can search again under the defaults, and
      publish what it finds. */
  lemma WipedRequestMaySearch(settings: Methods)
    ensures exists events, w, v :: SearchesPastAWipe(settings, events, w) && PublishesWhatItFinds(w, v)
  {
    var w0 := Start(settings);
    var looking := w0.(resolver := Some(Resolver(0, 0, Looking)));
    var wiped := looking.(settings := DEFAULT_METHODS, wipeEpoch := 1, invalidations := 1);
    var searching := AfterTheWipe(wiped);
    BeforeTheWipe(w0, [Invalidate, Look(0), ReadSettings], searching);
    assert [Resolve(0), CheckWipe, Event.Wipe] + [Invalidate, Look(0), ReadSettings]
        == [Resolve(0), CheckWipe, Event.Wipe, Invalidate, Look(0), ReadSettings];
    FoundIsPublished(searching);
    assert SearchesPastAWipe(settings, [Resolve(0), CheckWipe, Event.Wipe, Invalidate, Look(0), ReadSettings], searching);
  }

  lemma BeforeTheWipe(w: World, events: seq<Event>, v: World)
    requires w.resolver.None? && w.wipeEpoch == 0 && w.invalidations == 0 && events != []
    requires Runs(w.(resolver := Some(Resolver(0, 0, Looking)), settings := DEFAULT_METHODS, wipeEpoch := 1, invalidations := 1), events, v)
    ensures Runs(w, [Resolve(0), CheckWipe, Event.Wipe] + events, v)
  {
    Earlier(w.(resolver := Some(Resolver(0, 0, Looking))), Event.Wipe, events, v);
    Earlier(w.(resolver := Some(Resolver(0, 0, Top))), CheckWipe, [Event.Wipe] + events, v);
    Earlier(w, Resolve(0), [CheckWipe] + ([Event.Wipe] + events), v);
    assert [Resolve(0), CheckWipe, Event.Wipe] + events == [Resolve(0)] + ([CheckWipe] + ([Event.Wipe] + events));
  }

  lemma AfterTheWipe(wiped: World) returns (searching: World)
    requires wiped.invalidations == 1 && wiped.hub == NO_ROUTE && wiped.settings == DEFAULT_METHODS && wiped.log == []
    requires wiped.resolver == Some(Resolver(0, 0, Looking))
    ensures searching == wiped.(invalidations := 0, hub := Invalidated(NO_ROUTE), log := [PlanChanged] + [SearchBegan(0)],
      resolver := Some(Resolver(0, 0, Searching(1, 1, DEFAULT_METHODS))))
    ensures Runs(wiped, [Invalidate, Look(0), ReadSettings], searching)
  {
    var done := wiped.(invalidations := 0, hub := Invalidated(NO_ROUTE), log := [PlanChanged]);
    var snapping := done.(resolver := Some(Resolver(0, 0, Snapping(1, 1))), log := [PlanChanged] + [SearchBegan(0)]);
    searching := snapping.(resolver := Some(Resolver(0, 0, Searching(1, 1, DEFAULT_METHODS))));
    assert Next(wiped, Invalidate) == done by { assert [] + [PlanChanged] == [PlanChanged]; }
    assert Next(done, Look(0)) == snapping;
    assert Next(snapping, ReadSettings) == searching;
    Earlier(snapping, ReadSettings, [], searching);
    Earlier(done, Look(0), [ReadSettings], searching);
    Earlier(wiped, Invalidate, [Look(0), ReadSettings], searching);
  }

  lemma DirectIpByDefault()
    ensures Allowed(DEFAULT_METHODS, DirectIp)
  {
    hide EnabledMethods;
    EnabledAre(DEFAULT_METHODS);
    EnabledAre(Normalize(DEFAULT_METHODS));
  }

  /** A search of the plan in force that finds a route publishes it. */
  lemma FoundIsPublished(w: World)
    requires w.resolver.Some? && w.resolver.value.pc.Searching? && w.resolver.value.pc.generation == w.hub.generation
    requires w.resolver.value.pc.methods == DEFAULT_METHODS
    ensures exists v :: PublishesWhatItFinds(w, v)
  {
    DirectIpByDefault();
    hide Allowed;
    var held := Next(w, Answer(Some(DirectIp)));
    var v := Next(held, Land(0));
    Earlier(held, Land(0), [], v);
    Earlier(w, Answer(Some(DirectIp)), [Land(0)], v);
    assert [Answer(Some(DirectIp))] + [Land(0)] == [Answer(Some(DirectIp)), Land(0)];
    assert PublishesWhatItFinds(w, v);
  }

  lemma Earlier(w: World, e: Event, events: seq<Event>, v: World)
    requires Enabled(w, e) && (events == [] ==> v == Next(w, e)) && (events != [] ==> Runs(Next(w, e), events, v))
    ensures Runs(w, [e] + events, v)
  {
    assert ([e] + events)[1..] == events;
  }

  // ---- What a search and a failure come to ----

  /** A search begins exactly when there is no route in use and the last search that found nothing, not
      forgiven since, is 20 seconds ago or more; else the request has its answer at once. */
  lemma SearchBeginsExactlyWhen(settings: Methods, events: seq<Event>, w: World, now: int)
    requires Runs(Start(settings), events, w) && Enabled(w, Look(now))
    ensures var v := Next(w, Look(now));
      if w.hub.active.None? && (LastInVain(w.log).Some? ==> now - LastInVain(w.log).value >= 20_000)
      then v.log == w.log + [SearchBegan(now)] && v.resolver.Some? && v.resolver.value.pc.Snapping?
      else v == w.(resolver := None)
  {
    StartInv(settings);
    RunsKeepInv(Start(settings), events, w);
  }

  function PlanChanges(log: seq<Note>): nat {
    if log == [] then 0 else PlanChanges(log[..|log| - 1]) + if log[|log| - 1].PlanChanged? then 1 else 0
  }

  /** The generation counts the changes of plan, and a search remembers how many came before it. */
  ghost predicate Generations(w: World) {
    && w.hub.generation == PlanChanges(w.log)
    && (w.resolver.Some? && (w.resolver.value.pc.Snapping? || w.resolver.value.pc.Searching? || w.resolver.value.pc.Landing?) ==>
         var pc := w.resolver.value.pc;
         pc.began <= |w.log| && pc.generation == PlanChanges(w.log[..pc.began]))
  }

  lemma PlanChangesGrow(log: seq<Note>, note: Note)
    ensures PlanChanges(log + [note]) == PlanChanges(log) + if note.PlanChanged? then 1 else 0
  {
    assert (log + [note])[..|log|] == log;
  }

  /** What one step adds to the log: nothing, one note, or a failure and its drop. */
  ghost predicate Adds(w: World, v: World, added: seq<Note>) {
    && v.log == w.log + added && |added| <= 2
    && v.hub.generation == w.hub.generation + (if added == [PlanChanged] then 1 else 0)
    && (added != [PlanChanged] ==> PlanChanged !in added)
  }

  lemma FailAdds(w: World, i: nat) returns (added: seq<Note>)
    requires Enabled(w, Fail(i))
    ensures Adds(w, Next(w, Fail(i)), added)
    ensures forall note :: note in added ==> !note.SearchBegan?
    ensures Next(w, Fail(i)).resolver == w.resolver
  {
    var route := w.requests[i].route;
    if w.hub.active != Some(route) {
      added := [];
    } else if Failure(w.hub, route).1 {
      added := [FailedOn(route), Dropped(route)];
      assert w.log + added == w.log + [FailedOn(route)] + [Dropped(route)];
    } else {
      added := [FailedOn(route)];
    }
  }

  lemma LandAdds(w: World, now: int) returns (added: seq<Note>)
    requires Enabled(w, Land(now))
    ensures Adds(w, Next(w, Land(now)), added)
  {
    added := Next(w, Land(now)).log[|w.log|..];
  }

  lemma LookAdds(w: World, now: int) returns (added: seq<Note>)
    requires Enabled(w, Look(now))
    ensures Adds(w, Next(w, Look(now)), added)
  {
    hide RetryIn;
    added := Next(w, Look(now)).log[|w.log|..];
  }

  lemma NotedAdds(w: World, e: Event) returns (added: seq<Note>)
    requires Enabled(w, e) && (e.Succeed? || e.Invalidate?)
    ensures Adds(w, Next(w, e), added)
  {
    added := if e.Succeed? then [Succeeded] else [PlanChanged];
  }

  lemma QuietAdds(w: World, e: Event)
    requires Enabled(w, e) && !e.Look? && !e.Land? && !e.Fail? && !e.Succeed? && !e.Invalidate?
    ensures Adds(w, Next(w, e), [])
  {
    hide Allowed;
  }

  lemma StepAdds(w: World, e: Event) returns (added: seq<Note>)
    requires Enabled(w, e)
    ensures Adds(w, Next(w, e), added)
  {
    hide Next, Enabled, Adds;
    match e
    case Fail(i) => added := FailAdds(w, i);
    case Land(now) => added := LandAdds(w, now);
    case Look(now) => added := LookAdds(w, now);
    case Succeed(_) => added := NotedAdds(w, e);
    case Invalidate => added := NotedAdds(w, e);
    case _ => QuietAdds(w, e); added := [];
  }

  lemma GenerationsStay(w: World, e: Event)
    requires Enabled(w, e) && Generations(w)
    ensures Generations(Next(w, e))
  {
    var added := StepAdds(w, e);
    var v := Next(w, e);
    if |added| == 0 {
      assert v.log == w.log;
    } else {
      PlanChangesGrow(w.log, added[0]);
      if |added| == 2 {
        PlanChangesGrow(w.log + [added[0]], added[1]);
        assert v.log == w.log + [added[0]] + [added[1]];
      } else {
        assert v.log == w.log + [added[0]];
      }
    }
    SearchStays(w, e);
    hide PlanChanges, RetryIn, Allowed;
  }

  /** A search under way keeps where it began; a new one begins here. */
  lemma SearchStays(w: World, e: Event)
    requires Enabled(w, e) && Generations(w)
    ensures var v := Next(w, e);
      v.resolver.Some? && (v.resolver.value.pc.Snapping? || v.resolver.value.pc.Searching? || v.resolver.value.pc.Landing?) ==>
        var pc := v.resolver.value.pc;
        pc.began <= |v.log| && pc.generation == PlanChanges(v.log[..pc.began])
  {
    var added := StepAdds(w, e);
    var v := Next(w, e);
    assert forall k :: 0 <= k <= |w.log| ==> v.log[..k] == w.log[..k];
    assert w.log[..|w.log|] == w.log;
    hide PlanChanges, RetryIn, Allowed, Adds;
  }

  lemma {:induction false} RunsKeepGenerations(w: World, events: seq<Event>, v: World)
    requires Generations(w) && Runs(w, events, v)
    ensures Generations(v)
    decreases |events|
  {
    hide Generations, Next, Enabled;
    if events != [] {
      GenerationsStay(w, events[0]);
      RunsKeepGenerations(Next(w, events[0]), events[1..], v);
    }
  }

  lemma {:induction false} PlanChangesSince(log: seq<Note>, from: nat)
    requires from <= |log|
    ensures PlanChanges(log) >= PlanChanges(log[..from])
    ensures PlanChanges(log) == PlanChanges(log[..from]) <==> SamePlan(log, from)
    decreases |log|
  {
    if from < |log| {
      var most := log[..|log| - 1];
      PlanChangesSince(most, from);
      assert most[..from] == log[..from];
      assert log == most + [log[|log| - 1]];
    } else {
      assert log[..from] == log;
    }
  }

  /** An answer lands as the route in use, or as a search in vain, exactly when no change of plan was
      noted since its search began; else its path is to be closed and the request starts over. */
  lemma LandedAnswerIsTheRoute(settings: Methods, events: seq<Event>, w: World, now: int)
    requires Runs(Start(settings), events, w) && Enabled(w, Land(now))
    ensures w.resolver.value.pc.began < |w.log| && w.log[w.resolver.value.pc.began].SearchBegan?
    ensures var r := w.resolver.value;
      var v := Next(w, Land(now));
      if forall k :: r.pc.began <= k < |w.log| ==> w.log[k] != PlanChanged
      then v.resolver.None? && v.hub.active == r.pc.found && v.closing == w.closing
        && v.log == w.log + [if r.pc.found.Some? then Published(r.pc.found.value, r.pc.began) else SearchedInVain(now)]
      else (v.resolver == Some(Resolver(r.wipe, r.attempt + 1, Top)) && v.hub == w.hub && v.log == w.log
        && v.closing == w.closing + One(r.pc.found))
  {
    StartInv(settings);
    RunsKeepInv(Start(settings), events, w);
    RunsKeepGenerations(Start(settings), events, w);
    PlanChangesSince(w.log, w.resolver.value.pc.began);
    hide PlanChanges, AllEarned, Tracked, RouteAllowed, EachOnce, Allowed;
  }

  lemma {:induction false} FailureCounts(log: seq<Note>, route: nat, k: nat)
    requires k < |log| && log[k] == FailedOn(route) && forall j :: k <= j < |log| ==> !Forgives(log[j])
    ensures Fails(log, route) > 0
    decreases |log|
  {
    if k < |log| - 1 {
      FailureCounts(log[..|log| - 1], route, k);
    }
  }

  /** A failed request drops the route it went over exactly when that route is in use and an earlier
      request on it failed with nothing forgiving in between; a failure on any other route is nothing. */
  lemma FailureDropsExactlyWhen(settings: Methods, events: seq<Event>, w: World, i: nat)
    requires Runs(Start(settings), events, w) && Enabled(w, Fail(i))
    ensures var route := w.requests[i].route;
      var v := Next(w, Fail(i));
      var again := exists k :: 0 <= k < |w.log| && w.log[k] == FailedOn(route) && (forall j :: k <= j < |w.log| ==> !Forgives(w.log[j]));
      if w.hub.active != Some(route) then v.hub == w.hub && v.log == w.log && v.closing == w.closing
      else if again then v.hub.active.None? && v.log == w.log + [FailedOn(route)] + [Dropped(route)] && v.closing == w.closing + multiset{route}
      else v.hub.active == Some(route) && v.log == w.log + [FailedOn(route)] && v.closing == w.closing
  {
    StartInv(settings);
    RunsKeepInv(Start(settings), events, w);
    var route := w.requests[i].route;
    if Fails(w.log, route) > 0 {
      var k := FailsAreRecent(w.log, route);
    }
    if k: nat :| k < |w.log| && w.log[k] == FailedOn(route) && (forall j :: k <= j < |w.log| ==> !Forgives(w.log[j])) {
      FailureCounts(w.log, route, k);
    }
    hide Fails, AllEarned, RouteAllowed, EachOnce, Allowed, LastInVain, SearchSound;
  }

  // ---- How often a request searches ----

  function Searches(log: seq<Note>): nat {
    if log == [] then 0 else Searches(log[..|log| - 1]) + if log[|log| - 1].SearchBegan? then 1 else 0
  }

  lemma SearchesGrow(log: seq<Note>, note: Note)
    ensures Searches(log + [note]) == Searches(log) + if note.SearchBegan? then 1 else 0
  {
    assert (log + [note])[..|log|] == log;
  }

  predicate UnderWay(pc: SearchPc) {
    pc.Snapping? || pc.Searching? || pc.Landing?
  }

  /** The request in hand, if there is one, has begun this many searches since the log held `base`. */
  ghost predicate Counted(w: World, base: nat) {
    w.resolver.Some? ==>
      Searches(w.log) == base + w.resolver.value.attempt + if UnderWay(w.resolver.value.pc) then 1 else 0
  }

  lemma FailSearchesNothing(w: World, i: nat)
    requires Enabled(w, Fail(i))
    ensures Searches(Next(w, Fail(i)).log) == Searches(w.log) && Next(w, Fail(i)).resolver == w.resolver
  {
    var added := FailAdds(w, i);
    var v := Next(w, Fail(i));
    hide Searches, Next;
    if |added| == 0 {
      assert v.log == w.log;
    } else if |added| == 1 {
      SearchesGrow(w.log, added[0]);
      assert v.log == w.log + [added[0]];
    } else {
      SearchesGrow(w.log, added[0]);
      SearchesGrow(w.log + [added[0]], added[1]);
      assert v.log == w.log + [added[0]] + [added[1]];
    }
  }

  lemma CountedStays(w: World, e: Event, base: nat)
    requires Enabled(w, e) && !e.Resolve? && Counted(w, base)
    ensures Counted(Next(w, e), base)
  {
    hide Searches, RetryIn, Allowed, Failed;
    match e
    case Look(now) => SearchesGrow(w.log, SearchBegan(now));
    case Fail(i) => FailSearchesNothing(w, i);
    case Succeed(_) => SearchesGrow(w.log, Succeeded);
    case Invalidate => SearchesGrow(w.log, PlanChanged);
    case _ =>
  }

  lemma {:induction false} RunsKeepCounted(w: World, events: seq<Event>, v: World, base: nat)
    requires Runs(w, events, v) && NoOtherRequest(events) && Counted(w, base)
    ensures Counted(v, base)
    decreases |events|
  {
    hide Counted, Next, Enabled;
    if events != [] {
      assert !events[0].Resolve?;
      CountedStays(w, events[0], base);
      RunsKeepCounted(Next(w, events[0]), events[1..], v, base);
    }
  }

  /** A request whose search was overtaken searches once more: past its check, for a first or a second
      search and no third, exactly when no wipe has run since the session it came with. */
  lemma RequestSearchesExactlyTwice(before: World, wipe: nat, events: seq<Event>, w: World)
    requires Enabled(before, Resolve(wipe)) && Runs(Next(before, Resolve(wipe)), events, w) && NoOtherRequest(events)
    requires Enabled(w, CheckWipe)
    ensures Searches(w.log) >= Searches(before.log)
    ensures var v := Next(w, CheckWipe);
      if Searches(w.log) - Searches(before.log) < 2 && w.wipeEpoch == wipe
      then v == w.(resolver := v.resolver) && v.resolver.Some? && v.resolver.value.pc.Looking?
      else v == w.(resolver := None)
  {
    RunsKeepCounted(Next(before, Resolve(wipe)), events, w, Searches(before.log));
    RequestKeepsItsEpoch(Next(before, Resolve(wipe)), events, w);
    hide Searches;
  }

  // ---- Requests and changes of plan ----

  /** A request goes over the route in use when it is sent, and is answered once. */
  lemma RequestsGoOverTheRoute(w: World, e: Event)
    requires Enabled(w, e)
    ensures Next(w, e).requests ==
      match e {
        case Send => w.requests + [Request(w.hub.active.value, false)]
        case Fail(i) => w.requests[i := Request(w.requests[i].route, true)]
        case Succeed(i) => w.requests[i := Request(w.requests[i].route, true)]
        case _ => w.requests
      }
  {
    hide Looked, Landed, Answered;
    match e
    case Look(now) => assert Looked(w, now).requests == w.requests by { LookLeaves(w, now); }
    case Land(now) => assert Landed(w, now).requests == w.requests by { LandLeaves(w, now); }
    case Answer(found) => assert Answered(w, found).requests == w.requests by { AnswerLeaves(w, found); }
    case _ =>
  }

  lemma LookLeaves(w: World, now: int)
    requires w.resolver.Some?
    ensures Looked(w, now) == w.(resolver := Looked(w, now).resolver, log := Looked(w, now).log)
  {
  }

  lemma LandLeaves(w: World, now: int)
    requires w.resolver.Some? && w.resolver.value.pc.Landing?
    ensures var v := Landed(w, now); v == w.(resolver := v.resolver, log := v.log, hub := v.hub, closing := v.closing)
  {
  }

  lemma AnswerLeaves(w: World, found: Option<Method>)
    requires w.resolver.Some? && w.resolver.value.pc.Searching?
    ensures var v := Answered(w, found); v == w.(resolver := v.resolver, paths := v.paths)
  {
  }

  lemma FailLeaves(w: World, i: nat)
    requires Enabled(w, Fail(i))
    ensures var v := Next(w, Fail(i)); v == w.(hub := v.hub, log := v.log, closing := v.closing, requests := v.requests)
  {
  }

  /** What changes the plan: settings that differ, a wipe, another network. */
  predicate Demands(w: World, e: Event) {
    (e.ChangeSettings? && e.methods != w.settings) || e.Wipe? || e.NetworkChanged?
  }

  function Demanded(w: World, events: seq<Event>): nat
    decreases |events|
  {
    if events == [] || !Enabled(w, events[0]) then 0
    else (if Demands(w, events[0]) then 1 else 0) + Demanded(Next(w, events[0]), events[1..])
  }

  lemma DemandIsOwed(w: World, e: Event)
    requires Enabled(w, e)
    ensures var v := Next(w, e);
      && PlanChanges(v.log) + v.invalidations == PlanChanges(w.log) + w.invalidations + (if Demands(w, e) then 1 else 0)
      && v.settings == (if e.ChangeSettings? then e.methods else if e.Wipe? then DEFAULT_METHODS else w.settings)
  {
    var added := StepAdds(w, e);
    var v := Next(w, e);
    AddedChanges(w.log, v.log, added);
    InvalidationsMove(w, e);
    hide Next, PlanChanges;
  }

  lemma AddedChanges(log: seq<Note>, more: seq<Note>, added: seq<Note>)
    requires more == log + added && |added| <= 2 && (added != [PlanChanged] ==> PlanChanged !in added)
    ensures PlanChanges(more) == PlanChanges(log) + if added == [PlanChanged] then 1 else 0
  {
    if |added| == 0 {
      assert more == log;
    } else {
      PlanChangesGrow(log, added[0]);
      if |added| == 2 {
        PlanChangesGrow(log + [added[0]], added[1]);
        assert more == log + [added[0]] + [added[1]];
      } else {
        assert more == log + [added[0]];
      }
    }
  }

  lemma InvalidationsMove(w: World, e: Event)
    requires Enabled(w, e)
    ensures var v := Next(w, e);
      && v.invalidations == w.invalidations + (if Demands(w, e) then 1 else 0) - (if e.Invalidate? then 1 else 0)
      && (e.Invalidate? <==> v.hub.generation != w.hub.generation)
      && v.settings == (if e.ChangeSettings? then e.methods else if e.Wipe? then DEFAULT_METHODS else w.settings)
  {
    hide Looked, Landed, Answered;
    match e
    case Look(now) => LookLeaves(w, now);
    case Land(now) => LandLeaves(w, now); LandKeepsGeneration(w, now);
    case Answer(found) => AnswerLeaves(w, found);
    case Fail(i) => FailLeaves(w, i);
    case _ =>
  }

  lemma LandKeepsGeneration(w: World, now: int)
    requires w.resolver.Some? && w.resolver.value.pc.Landing?
    ensures Landed(w, now).hub.generation == w.hub.generation
  {
  }

  /** Every change of plan asked for is noted once, or its invalidation is still to run. */
  lemma {:induction false} EveryChangeIsFollowed(w: World, events: seq<Event>, v: World)
    requires Runs(w, events, v)
    ensures PlanChanges(v.log) + v.invalidations == PlanChanges(w.log) + w.invalidations + Demanded(w, events)
    decreases |events|
  {
    hide PlanChanges, Next, Enabled, Demands;
    if events != [] {
      DemandIsOwed(w, events[0]);
      EveryChangeIsFollowed(Next(w, events[0]), events[1..], v);
    }
  }
}
