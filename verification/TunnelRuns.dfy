/** Every interleaving of starts, stops, prepares and session ends over the tunnel globals. Each
    thread's program counter names the critical section or slow step it takes next. */
module TunnelRuns {
  import opened Support
  import opened TunnelState

  /** A start: in its cascade with or without a device up, gone live, torn down, past finishStart's
      critical section, or gone. */
  datatype StartPc = Walking(device: bool) | WentLive | TornDown | Released | Gone

  /** A stop waits for what it cancelled, decides what to say, says it, and closes what it took. */
  datatype StopPc = Awaiting | Deciding | Saying(said: Status) | Closing | Closed | Finished

  /** A stop with what its detach handed it. */
  datatype Stopper = Stopper(forSwitch: bool, tunnel: Option<nat>, pending: Option<nat>, pc: StopPc, timedOut: bool)

  /** A prepare waiting for its registration, with the session and identity it captured. */
  datatype Preparer = Preparer(epoch: nat, identity: Option<nat>, published: bool)

  datatype Writer = ByAttempt(a: nat) | ByStopper(t: nat) | ByWipe

  datatype Write = Write(writer: Writer, status: Status)

  datatype World = World(
    g: Globals,
    starts: seq<StartPc>,
    stops: seq<Stopper>,
    prepares: seq<Preparer>,
    // Read by no step: the key material each config came with, every status written, every runtime closed.
    material: seq<(Bytes, Bytes)>,
    writes: seq<Write>,
    closed: seq<nat>)

  const Start := World(Boot, [], [], [], [], [], [])

  datatype Event =
    | Claim
    | DeviceUp(a: nat)
    | Report(a: nat, status: Status)
    | Publish(a: nat)
    | TearDown(a: nat)
    | Finish(a: nat)
    | LetGo(a: nat)
    | Detach(forSwitch: bool)
    | Await(t: nat, timeout: bool)
    | Decide(t: nat)
    | Say(t: nat)
    | Close(t: nat)
    | LastWord(t: nat)
    | BeginPrepare
    | EndPrepare(p: nat, key: Bytes, psk: Bytes)
    | SessionEnds
    | WipeMemory
    | IdentityChanges(identity: Option<nat>)

  predicate Unfinished(pc: StartPc) {
    pc.Walking? || pc.WentLive? || pc.TornDown?
  }

  /** A start reports `connecting` and errors on its way, `connected` once live, an error when torn down. */
  predicate MayReport(pc: StartPc, config: nat, s: Status) {
    match pc
    case Walking(_) => s == Connecting(config) || s == TunnelState.Failed(config)
    case WentLive => s == ConnectedTo(config)
    case TornDown => s == TunnelState.Failed(config)
    case _ => false
  }

  ghost predicate Shape(w: World) {
    && |w.starts| == |w.g.attempts| && |w.material| == |w.g.configs|
    && (forall a :: 0 <= a < |w.g.attempts| ==> w.g.attempts[a].config < |w.g.configs|)
    && (w.g.prepared.Some? ==> w.g.prepared.value < |w.g.configs|)
    && (w.g.starting.Some? ==> w.g.starting.value < |w.g.attempts|)
    && (forall t :: 0 <= t < |w.stops| ==>
         && (w.stops[t].tunnel.Some? ==> w.stops[t].tunnel.value < |w.g.attempts|)
         && (w.stops[t].pending.Some? ==> w.stops[t].pending.value < |w.g.attempts|))
  }

  ghost predicate Enabled(w: World, e: Event)
    requires Shape(w)
  {
    match e
    case DeviceUp(a) => a < |w.starts| && w.starts[a] == Walking(false)
    case Report(a, s) => a < |w.starts| && MayReport(w.starts[a], w.g.attempts[a].config, s)
    case Publish(a) => a < |w.starts| && w.starts[a] == Walking(true)
    case TearDown(a) => a < |w.starts| && w.starts[a].Walking?
    case Finish(a) => a < |w.starts| && w.starts[a] in {WentLive, TornDown}
    case LetGo(a) => a < |w.starts| && w.starts[a] == Released
    case Await(t, timeout) => t < |w.stops| && w.stops[t].pc == Awaiting
      && (timeout || w.stops[t].pending.None? || w.g.attempts[w.stops[t].pending.value].done)
    case Decide(t) => t < |w.stops| && w.stops[t].pc == Deciding
    case Say(t) => t < |w.stops| && w.stops[t].pc.Saying?
    case Close(t) => t < |w.stops| && w.stops[t].pc == Closing && w.stops[t].tunnel.Some?
    case LastWord(t) => t < |w.stops| && w.stops[t].pc == Closed
    case EndPrepare(p, _, _) => p < |w.prepares| && !w.prepares[p].published
    case BeginPrepare => w.g.identity.Some?
    case _ => true
  }

  function Moved(w: World, a: nat, pc: StartPc): World
    requires a < |w.starts|
  {
    w.(starts := w.starts[a := pc])
  }

  function Stepped(w: World, t: nat, pc: StopPc): World
    requires t < |w.stops|
  {
    w.(stops := w.stops[t := w.stops[t].(pc := pc)])
  }

  function Written(w: World, writer: Writer, s: Status): World {
    w.(g := w.g.(currentStatus := s), writes := w.writes + [Write(writer, s)])
  }

  /** What a stop writes once its wait is over. */
  ghost function Farewell(g: Globals, s: Stopper): (said: Status)
    requires s.tunnel.Some? || s.pending.Some?
    requires s.tunnel.Some? ==> s.tunnel.value < |g.attempts|
    requires s.pending.Some? ==> s.pending.value < |g.attempts|
    ensures !said.ConnectedTo?
  {
    if s.forSwitch then SwitchLabel(g, s.tunnel, s.pending)
    else if s.tunnel.Some? then Disconnecting(g.attempts[s.tunnel.value].config)
    else Disconnected
  }

  ghost function Decided(w: World, t: nat): World
    requires Shape(w) && t < |w.stops|
  {
    var s := w.stops[t];
    Stepped(w, t, if s.tunnel.None? && s.pending.None? then Finished else Saying(Farewell(w.g, s)))
  }

  ghost function Next(w: World, e: Event): World
    requires Shape(w) && Enabled(w, e)
  {
    match e
    case Claim =>
      var (g, r) := ClaimStart(w.g);
      if r.Ok? then w.(g := g, starts := w.starts + [Walking(false)]) else w
    case DeviceUp(a) => Moved(w, a, Walking(true))
    case Report(a, s) =>
      w.(g := PushAttemptStatus(w.g, a, s), writes := if w.g.attempts[a].cancelled then w.writes else w.writes + [Write(ByAttempt(a), s)])
    case Publish(a) =>
      var (g, live) := GoLive(w.g, a);
      if live then Moved(w, a, WentLive).(g := g) else w
    case TearDown(a) => Moved(w, a, TornDown)
    case Finish(a) => Moved(w, a, Released).(g := FinishStart(w.g, a))
    case LetGo(a) => Moved(w, a, Gone).(g := Release(w.g, a))
    case Detach(forSwitch) =>
      w.(g := DetachTunnel(w.g), stops := w.stops + [Stopper(forSwitch, w.g.activeTunnel, w.g.starting, Awaiting, false)])
    case Await(t, timeout) =>
      w.(stops := w.stops[t := w.stops[t].(pc := Deciding, timedOut := timeout)])
    case Decide(t) => Decided(w, t)
    case Say(t) =>
      Written(Stepped(w, t, if w.stops[t].tunnel.Some? then Closing else Finished), ByStopper(t), w.stops[t].pc.said)
    case Close(t) =>
      var a := w.stops[t].tunnel.value;
      Stepped(w, t, if w.stops[t].forSwitch then Finished else Closed).(g := Cancel(w.g, a), closed := w.closed + [a])
    case LastWord(t) => Written(Stepped(w, t, Finished), ByStopper(t), Disconnected)
    case BeginPrepare => w.(prepares := w.prepares + [Preparer(w.g.sessionEpoch, w.g.identity, false)])
    case EndPrepare(p, key, psk) =>
      w.(g := PublishPrepared(w.g, w.prepares[p].epoch, w.prepares[p].identity, key, psk).0,
         prepares := w.prepares[p := w.prepares[p].(published := true)],
         material := w.material + [(key, psk)])
    case SessionEnds => w.(g := EndSession(w.g))
    case WipeMemory => w.(g := WipeSection(w.g), writes := w.writes + [Write(ByWipe, Disconnected)])
    case IdentityChanges(identity) => w.(g := w.g.(identity := identity))
  }

  // ---- The invariant ----

  /** The cascades still reading config `p`'s keys. */
  ghost function Claims(starts: seq<StartPc>, attempts: seq<Attempt>, p: nat): set<nat>
    requires |starts| == |attempts|
  {
    set a | 0 <= a < |starts| && Unfinished(starts[a]) && attempts[a].config == p
  }

  ghost predicate Counted(starts: seq<StartPc>, attempts: seq<Attempt>, configs: seq<Config>) {
    |starts| == |attempts| &&
    forall p :: 0 <= p < |configs| ==> configs[p].starts == |Claims(starts, attempts, p)|
  }

  ghost predicate Intact(c: Config, material: (Bytes, Bytes)) {
    c.wgPrivateKeyRaw == material.0 && c.presharedKeyRaw == material.1
  }

  ghost predicate Zeroed(c: Config, material: (Bytes, Bytes)) {
    c.wgPrivateKeyRaw == Zeros(|material.0|) && c.presharedKeyRaw == Zeros(|material.1|)
  }

  /** Keys are intact while a cascade or `prepared` needs them, and zero as soon as neither does. */
  ghost predicate KeysKept(configs: seq<Config>, prepared: Option<nat>, material: seq<(Bytes, Bytes)>) {
    |material| == |configs| &&
    forall p :: 0 <= p < |configs| ==>
      if configs[p].starts != 0 || prepared == Some(p) then Intact(configs[p], material[p]) else Zeroed(configs[p], material[p])
  }

  ghost predicate InStep(pc: StartPc, t: Attempt) {
    && (pc.Walking? || pc.TornDown? ==> !t.live)
    && (pc.WentLive? ==> t.live)
    && (pc.Gone? <==> t.done)
    && (pc.Gone? && !t.live ==> t.cancelled)
  }

  /** `starting` is exactly the unfinished start nobody cancelled; it holds the tunnel once live, and
      keeps the slot empty until then. */
  ghost predicate StartingIs(starts: seq<StartPc>, attempts: seq<Attempt>, starting: Option<nat>, activeTunnel: Option<nat>) {
    && |starts| == |attempts|
    && (forall a :: 0 <= a < |starts| ==>
         && (starting == Some(a) <==> Unfinished(starts[a]) && !attempts[a].cancelled)
         && InStep(starts[a], attempts[a]))
    && (starting.Some? && starting.value < |starts| ==>
         activeTunnel == if attempts[starting.value].live then starting else None)
  }

  ghost predicate HandedTo(stops: seq<Stopper>, a: nat, t: nat) {
    t < |stops| && stops[t].tunnel == Some(a)
  }

  ghost predicate PastClose(s: Stopper) {
    s.pc == Closed || s.pc == Finished
  }

  ghost predicate Handed(stops: seq<Stopper>, a: nat) {
    exists t: nat :: HandedTo(stops, a, t)
  }

  /** A runtime that went live is active or was handed to exactly one stop. */
  ghost predicate Owned(attempts: seq<Attempt>, activeTunnel: Option<nat>, stops: seq<Stopper>) {
    && (activeTunnel.Some? ==> activeTunnel.value < |attempts| && attempts[activeTunnel.value].live)
    && (forall a :: 0 <= a < |attempts| && attempts[a].live && activeTunnel != Some(a) ==> Handed(stops, a))
    && (forall t: nat, a: nat :: HandedTo(stops, a, t) ==> a < |attempts| && attempts[a].live && activeTunnel != Some(a))
    && (forall t: nat, u: nat, a: nat :: HandedTo(stops, a, t) && HandedTo(stops, a, u) ==> t == u)
  }

  /** A handed runtime is closed once its stop is past closing it, and only then and there. */
  ghost predicate ClosedOnce(stops: seq<Stopper>, closed: seq<nat>) {
    && Distinct(closed)
    && (forall t: nat, a: nat :: HandedTo(stops, a, t) ==> (a in closed <==> PastClose(stops[t])))
    && (forall a: nat :: a in closed ==> Handed(stops, a))
    && (forall t :: 0 <= t < |stops| && stops[t].pc in {Closing, Closed} ==> stops[t].tunnel.Some?)
  }

  /** A start a stop took has left finishStart's critical section or is cancelled. */
  ghost predicate Silent(starts: seq<StartPc>, attempts: seq<Attempt>, a: nat) {
    a < |starts| && a < |attempts| && (attempts[a].cancelled || !Unfinished(starts[a]))
  }

  /** An unfinished start in a stop's hands is cancelled; past a wait that did not time out it is done. */
  ghost predicate TakenIsSilent(starts: seq<StartPc>, attempts: seq<Attempt>, stops: seq<Stopper>) {
    forall t :: 0 <= t < |stops| ==>
      && (stops[t].tunnel.Some? ==> Silent(starts, attempts, stops[t].tunnel.value))
      && (stops[t].pending.Some? ==> Silent(starts, attempts, stops[t].pending.value))
      && (stops[t].pc.Saying? ==> !stops[t].pc.said.ConnectedTo?)
      && (stops[t].pending.Some? && stops[t].pc != Awaiting && !stops[t].timedOut ==>
           stops[t].pending.value < |attempts| && attempts[stops[t].pending.value].done)
  }

  ghost predicate AboutToCorrect(stops: seq<Stopper>, t: nat, a: nat) {
    HandedTo(stops, a, t) && (stops[t].pc.Awaiting? || stops[t].pc.Deciding? || stops[t].pc.Saying?)
  }

  ghost predicate Truthful(activeTunnel: Option<nat>, stops: seq<Stopper>, last: Write) {
    last.status.ConnectedTo? ==>
      && last.writer.ByAttempt?
      && (activeTunnel == Some(last.writer.a) || exists t: nat :: AboutToCorrect(stops, t, last.writer.a))
  }

  /** The stored status is the last one written, and a stored `connected` is true of the active
      tunnel or is about to be overwritten by the stop that took that tunnel. */
  ghost predicate StatusTruthful(currentStatus: Status, writes: seq<Write>, activeTunnel: Option<nat>, stops: seq<Stopper>) {
    if writes == [] then currentStatus == Disconnected
    else
      var last := writes[|writes| - 1];
      currentStatus == last.status && Truthful(activeTunnel, stops, last)
  }

  ghost predicate Inv(w: World) {
    && Shape(w)
    && Counted(w.starts, w.g.attempts, w.g.configs)
    && KeysKept(w.g.configs, w.g.prepared, w.material)
    && StartingIs(w.starts, w.g.attempts, w.g.starting, w.g.activeTunnel)
    && Owned(w.g.attempts, w.g.activeTunnel, w.stops)
    && ClosedOnce(w.stops, w.closed)
    && TakenIsSilent(w.starts, w.g.attempts, w.stops)
    && StatusTruthful(w.g.currentStatus, w.writes, w.g.activeTunnel, w.stops)
  }

  // ---- Counting ----

  lemma ClaimsMove(starts: seq<StartPc>, attempts: seq<Attempt>, a: nat, pc: StartPc, p: nat)
    requires |starts| == |attempts| && a < |starts|
    ensures Unfinished(pc) == Unfinished(starts[a]) ==> Claims(starts[a := pc], attempts, p) == Claims(starts, attempts, p)
    ensures Unfinished(starts[a]) && !Unfinished(pc) ==>
      Claims(starts[a := pc], attempts, p) == Claims(starts, attempts, p) - {a}
    ensures Unfinished(starts[a]) ==> (a in Claims(starts, attempts, p) <==> attempts[a].config == p)
  {
  }

  lemma ClaimsGrow(starts: seq<StartPc>, attempts: seq<Attempt>, t: Attempt, p: nat)
    requires |starts| == |attempts|
    ensures Claims(starts + [Walking(false)], attempts + [t], p)
      == Claims(starts, attempts, p) + (if t.config == p then {|starts|} else {})
    ensures |starts| !in Claims(starts, attempts, p)
  {
  }

  ghost predicate SameConfigs(attempts: seq<Attempt>, other: seq<Attempt>) {
    |attempts| == |other| && forall a :: 0 <= a < |attempts| ==> attempts[a].config == other[a].config
  }

  lemma CountedStays(starts: seq<StartPc>, attempts: seq<Attempt>, moved: seq<StartPc>, other: seq<Attempt>, configs: seq<Config>, kept: seq<Config>)
    requires Counted(starts, attempts, configs) && SameConfigs(attempts, other) && |moved| == |starts|
    requires forall a :: 0 <= a < |starts| ==> Unfinished(starts[a]) == Unfinished(moved[a])
    requires |configs| == |kept| && forall p :: 0 <= p < |configs| ==> kept[p].starts == configs[p].starts
    ensures Counted(moved, other, kept)
  {
    forall p | 0 <= p < |kept| ensures kept[p].starts == |Claims(moved, other, p)| {
      assert Claims(moved, other, p) == Claims(starts, attempts, p);
    }
  }

  lemma CountedClaim(starts: seq<StartPc>, attempts: seq<Attempt>, configs: seq<Config>, p: nat)
    requires Counted(starts, attempts, configs) && p < |configs|
    ensures Counted(starts + [Walking(false)], attempts + [Attempt(p, false, false, false)],
              configs[p := configs[p].(starts := configs[p].starts + 1)])
  {
    var t := Attempt(p, false, false, false);
    forall q | 0 <= q < |configs|
      ensures |Claims(starts + [Walking(false)], attempts + [t], q)| == |Claims(starts, attempts, q)| + if p == q then 1 else 0
    {
      ClaimsGrow(starts, attempts, t, q);
    }
  }

  lemma CountedFinish(starts: seq<StartPc>, attempts: seq<Attempt>, configs: seq<Config>, a: nat, kept: seq<Config>)
    requires Counted(starts, attempts, configs) && a < |starts| && Unfinished(starts[a]) && attempts[a].config < |configs|
    requires |configs| == |kept|
    requires forall p :: 0 <= p < |configs| ==> kept[p].starts == configs[p].starts - if p == attempts[a].config then 1 else 0
    ensures Counted(starts[a := Released], attempts, kept)
    ensures configs[attempts[a].config].starts > 0
  {
    forall q | 0 <= q < |configs|
      ensures |Claims(starts[a := Released], attempts, q)| == |Claims(starts, attempts, q)| - if q == attempts[a].config then 1 else 0
    {
      ClaimsMove(starts, attempts, a, Released, q);
    }
    assert a in Claims(starts, attempts, attempts[a].config);
  }

  lemma CountedGrow(starts: seq<StartPc>, attempts: seq<Attempt>, configs: seq<Config>, c: Config)
    requires Counted(starts, attempts, configs) && c.starts == 0
    requires forall a :: 0 <= a < |attempts| ==> attempts[a].config < |configs|
    ensures Counted(starts, attempts, configs + [c])
  {
    assert Claims(starts, attempts, |configs|) == {};
  }

  // ---- Handing over ----

  ghost predicate SameTunnels(stops: seq<Stopper>, moved: seq<Stopper>) {
    |stops| == |moved| && forall t :: 0 <= t < |stops| ==> stops[t].tunnel == moved[t].tunnel
  }

  lemma HandedStays(stops: seq<Stopper>, moved: seq<Stopper>, a: nat)
    requires SameTunnels(stops, moved)
    ensures Handed(moved, a) == Handed(stops, a)
  {
    if Handed(stops, a) {
      var t: nat :| HandedTo(stops, a, t);
      assert HandedTo(moved, a, t);
    }
    if Handed(moved, a) {
      var t: nat :| HandedTo(moved, a, t);
      assert HandedTo(stops, a, t);
    }
  }

  lemma HandedGrows(stops: seq<Stopper>, s: Stopper, a: nat)
    ensures Handed(stops + [s], a) == (Handed(stops, a) || s.tunnel == Some(a))
  {
    if Handed(stops, a) {
      var t: nat :| HandedTo(stops, a, t);
      assert HandedTo(stops + [s], a, t);
    }
    if s.tunnel == Some(a) {
      assert HandedTo(stops + [s], a, |stops|);
    }
    if Handed(stops + [s], a) {
      var t: nat :| HandedTo(stops + [s], a, t);
      assert t < |stops| ==> HandedTo(stops, a, t);
    }
  }

  lemma OwnedStays(attempts: seq<Attempt>, other: seq<Attempt>, activeTunnel: Option<nat>, stops: seq<Stopper>, moved: seq<Stopper>)
    requires Owned(attempts, activeTunnel, stops) && SameTunnels(stops, moved)
    requires |attempts| <= |other| && forall a :: 0 <= a < |attempts| ==> attempts[a].live == other[a].live
    requires forall a :: |attempts| <= a < |other| ==> !other[a].live
    ensures Owned(other, activeTunnel, moved)
  {
    forall a: nat ensures Handed(moved, a) == Handed(stops, a) {
      HandedStays(stops, moved, a);
    }
    assert forall a: nat, t: nat :: HandedTo(moved, a, t) ==> HandedTo(stops, a, t);
  }

  lemma OwnedPublish(attempts: seq<Attempt>, a: nat, stops: seq<Stopper>)
    requires Owned(attempts, None, stops) && a < |attempts| && !attempts[a].live
    ensures Owned(attempts[a := attempts[a].(live := true)], Some(a), stops)
  {
  }

  lemma OwnedDetach(attempts: seq<Attempt>, other: seq<Attempt>, activeTunnel: Option<nat>, stops: seq<Stopper>, s: Stopper)
    requires Owned(attempts, activeTunnel, stops) && s.tunnel == activeTunnel
    requires |attempts| == |other| && forall a :: 0 <= a < |attempts| ==> attempts[a].live == other[a].live
    ensures Owned(other, None, stops + [s])
  {
    forall a: nat ensures Handed(stops + [s], a) == (Handed(stops, a) || s.tunnel == Some(a)) {
      HandedGrows(stops, s, a);
    }
    assert forall a: nat, t: nat :: HandedTo(stops + [s], a, t) ==>
      if t < |stops| then HandedTo(stops, a, t) else t == |stops| && activeTunnel == Some(a);
  }

  lemma ClosedStays(stops: seq<Stopper>, t: nat, s: Stopper, closed: seq<nat>)
    requires ClosedOnce(stops, closed) && t < |stops| && s.tunnel == stops[t].tunnel
    requires s.tunnel.Some? ==> PastClose(s) == PastClose(stops[t])
    requires s.pc in {Closing, Closed} ==> s.tunnel.Some?
    ensures ClosedOnce(stops[t := s], closed)
  {
    var moved := stops[t := s];
    forall a: nat ensures Handed(moved, a) == Handed(stops, a) {
      HandedStays(stops, moved, a);
    }
    assert forall a: nat, u: nat :: HandedTo(moved, a, u) ==> HandedTo(stops, a, u);
  }

  lemma ClosedGrows(stops: seq<Stopper>, s: Stopper, closed: seq<nat>)
    requires ClosedOnce(stops, closed) && s.pc == Awaiting
    requires s.tunnel.Some? ==> !Handed(stops, s.tunnel.value)
    ensures ClosedOnce(stops + [s], closed)
  {
    forall a: nat ensures Handed(stops + [s], a) == (Handed(stops, a) || s.tunnel == Some(a)) {
      HandedGrows(stops, s, a);
    }
    assert forall a: nat, u: nat :: HandedTo(stops + [s], a, u) ==>
      if u < |stops| then HandedTo(stops, a, u) else u == |stops| && s.tunnel == Some(a);
  }

  lemma ClosedAdds(stops: seq<Stopper>, t: nat, s: Stopper, closed: seq<nat>)
    requires ClosedOnce(stops, closed) && t < |stops| && s.tunnel == stops[t].tunnel && s.tunnel.Some?
    requires forall t: nat, u: nat, a: nat :: HandedTo(stops, a, t) && HandedTo(stops, a, u) ==> t == u
    requires !PastClose(stops[t]) && PastClose(s)
    ensures ClosedOnce(stops[t := s], closed + [s.tunnel.value])
  {
    var moved := stops[t := s];
    forall a: nat ensures Handed(moved, a) == Handed(stops, a) {
      HandedStays(stops, moved, a);
    }
    assert HandedTo(stops, s.tunnel.value, t);
    assert forall a: nat, u: nat :: HandedTo(moved, a, u) ==> HandedTo(stops, a, u);
  }

  /** The stored status after a stop moved on without writing. */
  lemma TruthfulStays(activeTunnel: Option<nat>, stops: seq<Stopper>, moved: seq<Stopper>, last: Write)
    requires Truthful(activeTunnel, stops, last)
    requires forall t: nat, a: nat :: AboutToCorrect(stops, t, a) ==> AboutToCorrect(moved, t, a)
    ensures Truthful(activeTunnel, moved, last)
  {
  }

  lemma TruthfulDetach(activeTunnel: Option<nat>, stops: seq<Stopper>, s: Stopper, last: Write)
    requires Truthful(activeTunnel, stops, last) && s.tunnel == activeTunnel && s.pc == Awaiting
    ensures Truthful(None, stops + [s], last)
  {
    if last.status.ConnectedTo? {
      if activeTunnel == Some(last.writer.a) {
        assert AboutToCorrect(stops + [s], |stops|, last.writer.a);
      } else {
        var t: nat :| AboutToCorrect(stops, t, last.writer.a);
        assert AboutToCorrect(stops + [s], t, last.writer.a);
      }
    }
  }

  lemma TakenMoves(starts: seq<StartPc>, attempts: seq<Attempt>, stops: seq<Stopper>, t: nat, s: Stopper)
    requires TakenIsSilent(starts, attempts, stops) && t < |stops|
    requires s.tunnel == stops[t].tunnel && s.pending == stops[t].pending
    requires s.pc != Awaiting && stops[t].pc != Awaiting && s.timedOut == stops[t].timedOut
    requires s.pc.Saying? ==> !s.pc.said.ConnectedTo?
    ensures TakenIsSilent(starts, attempts, stops[t := s])
  {
  }

  /** What finishStart's section and a cancel leave of what the stops hold. */
  lemma TakenStays(starts: seq<StartPc>, attempts: seq<Attempt>, moved: seq<StartPc>, other: seq<Attempt>, stops: seq<Stopper>)
    requires TakenIsSilent(starts, attempts, stops) && |starts| == |moved| && |attempts| == |other|
    requires forall a: nat :: Silent(starts, attempts, a) ==> Silent(moved, other, a)
    requires forall a :: 0 <= a < |attempts| ==> attempts[a].done ==> other[a].done
    ensures TakenIsSilent(moved, other, stops)
  {
  }

  lemma FinishKeysKept(g: Globals, a: nat, material: seq<(Bytes, Bytes)>)
    requires AttemptIn(g, a) && KeysKept(g.configs, g.prepared, material)
    requires g.configs[g.attempts[a].config].starts > 0
    ensures KeysKept(FinishStart(g, a).configs, g.prepared, material)
  {
  }

  lemma FinishStartingIs(w: World, a: nat)
    requires Shape(w) && StartingIs(w.starts, w.g.attempts, w.g.starting, w.g.activeTunnel)
    requires a < |w.starts| && w.starts[a] in {WentLive, TornDown}
    ensures StartingIs(w.starts[a := Released], w.g.attempts, if w.g.starting == Some(a) then None else w.g.starting, w.g.activeTunnel)
  {
  }

  // ---- Every step keeps the invariant ----

  lemma ClaimKeeps(w: World)
    requires Inv(w)
    ensures Inv(Next(w, Event.Claim))
  {
    var r := ClaimStart(w.g);
    if r.1.Ok? {
      CountedClaim(w.starts, w.g.attempts, w.g.configs, w.g.prepared.value);
      OwnedStays(w.g.attempts, r.0.attempts, w.g.activeTunnel, w.stops, w.stops);
    }
    hide Counted, Owned, ClosedOnce, StatusTruthful;
  }

  lemma DeviceUpKeeps(w: World, a: nat)
    requires Inv(w) && Enabled(w, Event.DeviceUp(a))
    ensures Inv(Next(w, Event.DeviceUp(a)))
  {
    CountedStays(w.starts, w.g.attempts, w.starts[a := Walking(true)], w.g.attempts, w.g.configs, w.g.configs);
    hide Counted, KeysKept, Owned, ClosedOnce, StatusTruthful;
  }

  lemma ReportKeeps(w: World, a: nat, s: Status)
    requires Inv(w) && Enabled(w, Event.Report(a, s))
    ensures Inv(Next(w, Event.Report(a, s)))
  {
    hide Counted, KeysKept, Owned, ClosedOnce, TakenIsSilent;
  }

  /** goLive never overwrites a running tunnel. */
  lemma PublishKeeps(w: World, a: nat)
    requires Inv(w) && Enabled(w, Event.Publish(a))
    ensures Inv(Next(w, Event.Publish(a)))
    ensures GoLive(w.g, a).1 ==> w.g.activeTunnel.None?
  {
    var r := GoLive(w.g, a);
    if r.1 {
      assert w.g.activeTunnel.None?;
      CountedStays(w.starts, w.g.attempts, w.starts[a := WentLive], r.0.attempts, w.g.configs, w.g.configs);
      OwnedPublish(w.g.attempts, a, w.stops);
      TruthfulAfterPublish(w, a);
    }
    hide Counted, KeysKept, Owned, ClosedOnce, StatusTruthful;
  }

  lemma TruthfulAfterPublish(w: World, a: nat)
    requires StatusTruthful(w.g.currentStatus, w.writes, None, w.stops)
    ensures StatusTruthful(w.g.currentStatus, w.writes, Some(a), w.stops)
  {
  }

  lemma TearDownKeeps(w: World, a: nat)
    requires Inv(w) && Enabled(w, Event.TearDown(a))
    ensures Inv(Next(w, Event.TearDown(a)))
  {
    CountedStays(w.starts, w.g.attempts, w.starts[a := TornDown], w.g.attempts, w.g.configs, w.g.configs);
    hide Counted, KeysKept, Owned, ClosedOnce, StatusTruthful;
  }

  lemma FinishKeeps(w: World, a: nat)
    requires Inv(w) && Enabled(w, Event.Finish(a))
    ensures Inv(Next(w, Event.Finish(a)))
  {
    var g := FinishStart(w.g, a);
    assert g == w.g.(starting := g.starting, configs := g.configs);
    CountedFinish(w.starts, w.g.attempts, w.g.configs, a, g.configs);
    FinishKeysKept(w.g, a, w.material);
    FinishStartingIs(w, a);
    TakenStays(w.starts, w.g.attempts, w.starts[a := Released], w.g.attempts, w.stops);
    hide Counted, Owned, ClosedOnce, StatusTruthful, KeysKept, StartingIs, TakenIsSilent;
  }

  lemma LetGoKeeps(w: World, a: nat)
    requires Inv(w) && Enabled(w, Event.LetGo(a))
    ensures Inv(Next(w, Event.LetGo(a)))
  {
    var g := Release(w.g, a);
    CountedStays(w.starts, w.g.attempts, w.starts[a := Gone], g.attempts, w.g.configs, w.g.configs);
    OwnedStays(w.g.attempts, g.attempts, w.g.activeTunnel, w.stops, w.stops);
    hide Counted, KeysKept, Owned, ClosedOnce, StatusTruthful;
  }

  lemma DetachKeeps(w: World, forSwitch: bool)
    requires Inv(w)
    ensures Inv(Next(w, Event.Detach(forSwitch)))
  {
    var g := DetachTunnel(w.g);
    var s := Stopper(forSwitch, w.g.activeTunnel, w.g.starting, Awaiting, false);
    CountedStays(w.starts, w.g.attempts, w.starts, g.attempts, w.g.configs, w.g.configs);
    OwnedDetach(w.g.attempts, g.attempts, w.g.activeTunnel, w.stops, s);
    ClosedGrows(w.stops, s, w.closed);
    if w.writes != [] {
      TruthfulDetach(w.g.activeTunnel, w.stops, s, w.writes[|w.writes| - 1]);
    }
    DetachTaken(w, s);
    assert g == w.g.(activeTunnel := None, starting := None, attempts := g.attempts);
    hide Counted, KeysKept, Owned, ClosedOnce, Truthful, StartingIs, TakenIsSilent, DetachTunnel;
  }

  lemma DetachTaken(w: World, s: Stopper)
    requires Shape(w) && StartingIs(w.starts, w.g.attempts, w.g.starting, w.g.activeTunnel)
    requires Owned(w.g.attempts, w.g.activeTunnel, w.stops) && TakenIsSilent(w.starts, w.g.attempts, w.stops)
    requires s.tunnel == w.g.activeTunnel && s.pending == w.g.starting && s.pc == Awaiting
    ensures var other := DetachTunnel(w.g).attempts;
      StartingIs(w.starts, other, None, None) && TakenIsSilent(w.starts, other, w.stops + [s])
  {
  }

  lemma AwaitTaken(w: World, t: nat, timeout: bool)
    requires Shape(w) && TakenIsSilent(w.starts, w.g.attempts, w.stops) && Enabled(w, Event.Await(t, timeout))
    ensures TakenIsSilent(w.starts, w.g.attempts, w.stops[t := w.stops[t].(pc := Deciding, timedOut := timeout)])
  {
  }

  lemma AwaitKeeps(w: World, t: nat, timeout: bool)
    requires Inv(w) && Enabled(w, Event.Await(t, timeout))
    ensures Inv(Next(w, Event.Await(t, timeout)))
  {
    var s := w.stops[t].(pc := Deciding, timedOut := timeout);
    OwnedStays(w.g.attempts, w.g.attempts, w.g.activeTunnel, w.stops, w.stops[t := s]);
    ClosedStays(w.stops, t, s, w.closed);
    AwaitTaken(w, t, timeout);
    if w.writes != [] {
      TruthfulStays(w.g.activeTunnel, w.stops, w.stops[t := s], w.writes[|w.writes| - 1]);
    }
    hide Counted, KeysKept, Owned, ClosedOnce, Truthful, StartingIs, TakenIsSilent, SameTunnels;
  }

  lemma DecideKeeps(w: World, t: nat)
    requires Inv(w) && Enabled(w, Event.Decide(t))
    ensures Inv(Next(w, Event.Decide(t)))
  {
    var s := Decided(w, t).stops[t];
    OwnedStays(w.g.attempts, w.g.attempts, w.g.activeTunnel, w.stops, w.stops[t := s]);
    ClosedStays(w.stops, t, s, w.closed);
    TakenMoves(w.starts, w.g.attempts, w.stops, t, s);
    if s.tunnel.None? && s.pending.None? {
      SilentReturnTruthful(w, t);
    } else if w.writes != [] {
      TruthfulStays(w.g.activeTunnel, w.stops, w.stops[t := s], w.writes[|w.writes| - 1]);
    }
    hide Counted, KeysKept, Owned, ClosedOnce, Truthful, StartingIs, TakenIsSilent, SameTunnels, Farewell;
  }

  lemma SayKeeps(w: World, t: nat)
    requires Inv(w) && Enabled(w, Event.Say(t))
    ensures Inv(Next(w, Event.Say(t)))
  {
    var s := w.stops[t].(pc := if w.stops[t].tunnel.Some? then Closing else Finished);
    OwnedStays(w.g.attempts, w.g.attempts, w.g.activeTunnel, w.stops, w.stops[t := s]);
    ClosedStays(w.stops, t, s, w.closed);
    TakenMoves(w.starts, w.g.attempts, w.stops, t, s);
    assert !w.stops[t].pc.said.ConnectedTo?;
    hide Counted, KeysKept, Owned, ClosedOnce, StartingIs, TakenIsSilent, SameTunnels;
  }

  /** A stop that took nothing has nothing to correct. */
  lemma SilentReturnTruthful(w: World, t: nat)
    requires t < |w.stops| && StatusTruthful(w.g.currentStatus, w.writes, w.g.activeTunnel, w.stops)
    requires w.stops[t].tunnel.None?
    ensures StatusTruthful(w.g.currentStatus, w.writes, w.g.activeTunnel, w.stops[t := w.stops[t].(pc := Finished)])
  {
    if w.writes != [] {
      TruthfulStays(w.g.activeTunnel, w.stops, w.stops[t := w.stops[t].(pc := Finished)], w.writes[|w.writes| - 1]);
    }
  }

  lemma CloseKeeps(w: World, t: nat)
    requires Inv(w) && Enabled(w, Event.Close(t))
    ensures Inv(Next(w, Event.Close(t)))
  {
    var a := w.stops[t].tunnel.value;
    var g := Cancel(w.g, a);
    var s := w.stops[t].(pc := if w.stops[t].forSwitch then Finished else Closed);
    CloseSilent(w, t, s);
    CountedStays(w.starts, w.g.attempts, w.starts, g.attempts, w.g.configs, w.g.configs);
    OwnedStays(w.g.attempts, g.attempts, w.g.activeTunnel, w.stops, w.stops[t := s]);
    ClosedAdds(w.stops, t, s, w.closed);
    if w.writes != [] {
      TruthfulStays(w.g.activeTunnel, w.stops, w.stops[t := s], w.writes[|w.writes| - 1]);
    }
    hide Counted, KeysKept, Owned, ClosedOnce, Truthful, TakenIsSilent, StartingIs;
  }

  lemma CancelStartingIs(starts: seq<StartPc>, attempts: seq<Attempt>, a: nat, starting: Option<nat>, activeTunnel: Option<nat>)
    requires StartingIs(starts, attempts, starting, activeTunnel) && Silent(starts, attempts, a)
    ensures StartingIs(starts, attempts[a := attempts[a].(cancelled := true)], starting, activeTunnel)
  {
  }

  lemma CloseSilent(w: World, t: nat, s: Stopper)
    requires Shape(w) && StartingIs(w.starts, w.g.attempts, w.g.starting, w.g.activeTunnel)
    requires TakenIsSilent(w.starts, w.g.attempts, w.stops)
    requires t < |w.stops| && w.stops[t].pc == Closing && w.stops[t].tunnel.Some?
    requires s == w.stops[t].(pc := s.pc) && s.pc != Awaiting && !s.pc.Saying?
    ensures var g := Cancel(w.g, s.tunnel.value);
      && TakenIsSilent(w.starts, g.attempts, w.stops[t := s])
      && StartingIs(w.starts, g.attempts, w.g.starting, w.g.activeTunnel)
  {
    var a := s.tunnel.value;
    var other := Cancel(w.g, a).attempts;
    TakenStays(w.starts, w.g.attempts, w.starts, other, w.stops);
    TakenMoves(w.starts, other, w.stops, t, s);
    CancelStartingIs(w.starts, w.g.attempts, a, w.g.starting, w.g.activeTunnel);
    hide StartingIs;
  }

  lemma LastWordKeeps(w: World, t: nat)
    requires Inv(w) && Enabled(w, Event.LastWord(t))
    ensures Inv(Next(w, Event.LastWord(t)))
  {
    var s := w.stops[t].(pc := Finished);
    OwnedStays(w.g.attempts, w.g.attempts, w.g.activeTunnel, w.stops, w.stops[t := s]);
    ClosedStays(w.stops, t, s, w.closed);
    hide Counted, KeysKept, Owned, ClosedOnce, StartingIs;
  }

  lemma EndPrepareKeeps(w: World, p: nat, key: Bytes, psk: Bytes)
    requires Inv(w) && Enabled(w, EndPrepare(p, key, psk))
    ensures Inv(Next(w, EndPrepare(p, key, psk)))
  {
    var q := w.prepares[p];
    PublishKeysKept(w.g, w.material, q.epoch, q.identity, key, psk);
    var g := PublishPrepared(w.g, q.epoch, q.identity, key, psk).0;
    var c := Config(key, psk, 0);
    CountedGrow(w.starts, w.g.attempts, w.g.configs, c);
    CountedStays(w.starts, w.g.attempts, w.starts, w.g.attempts, w.g.configs + [c], g.configs);
    hide PublishPrepared, KeysKept, Counted, Owned, ClosedOnce, TakenIsSilent, StatusTruthful, StartingIs;
  }

  lemma PublishKeysKept(g: Globals, material: seq<(Bytes, Bytes)>, epoch: nat, identity: Option<nat>, key: Bytes, psk: Bytes)
    requires KeysKept(g.configs, g.prepared, material) && (g.prepared.Some? ==> g.prepared.value < |g.configs|)
    requires g.starting.Some? ==> g.starting.value < |g.attempts|
    ensures var t := PublishPrepared(g, epoch, identity, key, psk).0;
      && KeysKept(t.configs, t.prepared, material + [(key, psk)])
      && t == g.(configs := t.configs, prepared := t.prepared)
      && (t.prepared.Some? ==> t.prepared.value < |t.configs|)
      && |t.configs| == |g.configs| + 1
      && forall p :: 0 <= p < |t.configs| ==> t.configs[p].starts == (g.configs + [Config(key, psk, 0)])[p].starts
  {
    var t := PublishPrepared(g, epoch, identity, key, psk).0;
    forall p | 0 <= p < |t.configs|
      ensures if t.configs[p].starts != 0 || t.prepared == Some(p)
        then Intact(t.configs[p], (material + [(key, psk)])[p]) else Zeroed(t.configs[p], (material + [(key, psk)])[p])
    {
      if p < |g.configs| {
        assert (material + [(key, psk)])[p] == material[p];
      }
    }
  }

  lemma EndSessionKeysKept(g: Globals, material: seq<(Bytes, Bytes)>)
    requires KeysKept(g.configs, g.prepared, material) && (g.prepared.Some? ==> g.prepared.value < |g.configs|)
    ensures var t := EndSession(g);
      && KeysKept(t.configs, None, material)
      && t == g.(configs := t.configs, prepared := None, sessionEpoch := g.sessionEpoch + 1)
      && |t.configs| == |g.configs|
      && forall p :: 0 <= p < |t.configs| ==> t.configs[p].starts == g.configs[p].starts
  {
  }

  lemma SessionEndsKeeps(w: World)
    requires Inv(w)
    ensures Inv(Next(w, Event.SessionEnds))
  {
    EndSessionKeysKept(w.g, w.material);
    CountedStays(w.starts, w.g.attempts, w.starts, w.g.attempts, w.g.configs, EndSession(w.g).configs);
    hide EndSession, KeysKept, Counted, Owned, ClosedOnce, TakenIsSilent, StatusTruthful, StartingIs;
  }

  lemma WipeMemoryKeeps(w: World)
    requires Inv(w)
    ensures Inv(Next(w, Event.WipeMemory))
  {
    EndSessionKeysKept(w.g, w.material);
    CountedStays(w.starts, w.g.attempts, w.starts, w.g.attempts, w.g.configs, EndSession(w.g).configs);
    hide EndSession, KeysKept, Counted, Owned, ClosedOnce, TakenIsSilent, StartingIs;
  }

  lemma NextKeeps(w: World, e: Event)
    requires Inv(w) && Enabled(w, e)
    ensures Inv(Next(w, e))
  {
    match e
    case Claim => ClaimKeeps(w);
    case DeviceUp(a) => DeviceUpKeeps(w, a);
    case Report(a, s) => ReportKeeps(w, a, s);
    case Publish(a) => PublishKeeps(w, a);
    case TearDown(a) => TearDownKeeps(w, a);
    case Finish(a) => FinishKeeps(w, a);
    case LetGo(a) => LetGoKeeps(w, a);
    case Detach(forSwitch) => DetachKeeps(w, forSwitch);
    case Await(t, timeout) => AwaitKeeps(w, t, timeout);
    case Decide(t) => DecideKeeps(w, t);
    case Say(t) => SayKeeps(w, t);
    case Close(t) => CloseKeeps(w, t);
    case LastWord(t) => LastWordKeeps(w, t);
    case EndPrepare(p, key, psk) => EndPrepareKeeps(w, p, key, psk);
    case SessionEnds => SessionEndsKeeps(w);
    case WipeMemory => WipeMemoryKeeps(w);
    case BeginPrepare => hide *;
    case IdentityChanges(identity) => hide *;
  }

  // ---- Main results over runs ----

  ghost predicate Runs(w: World, events: seq<Event>, v: World)
    decreases |events|
  {
    if events == [] then v == w
    else Shape(w) && Enabled(w, events[0]) && Runs(Next(w, events[0]), events[1..], v)
  }

  lemma StartInv()
    ensures Inv(Start)
  {
  }

  lemma {:induction false} RunsKeepInv(w: World, events: seq<Event>, v: World)
    requires Inv(w) && Runs(w, events, v)
    ensures Inv(v)
    decreases |events|
  {
    if events != [] {
      hide Inv, Next, Enabled;
      NextKeeps(w, events[0]);
      RunsKeepInv(Next(w, events[0]), events[1..], v);
    }
  }

  /** Over every interleaving `starts` counts a config's unfinished starts; its keys are what Prepare
      registered for as long as one of them or `prepared` needs them, and zero as soon as none does. */
  lemma KeyLifetime(events: seq<Event>, w: World, p: nat)
    requires Runs(Start, events, w)
    ensures |w.starts| == |w.g.attempts| && |w.material| == |w.g.configs|
    ensures p < |w.g.configs| ==>
      && w.g.configs[p].starts == |Claims(w.starts, w.g.attempts, p)|
      && (w.g.configs[p].starts != 0 || w.g.prepared == Some(p) ==> Intact(w.g.configs[p], w.material[p]))
      && (w.g.configs[p].starts == 0 && w.g.prepared != Some(p) ==> Zeroed(w.g.configs[p], w.material[p]))
  {
    StartInv();
    RunsKeepInv(Start, events, w);
  }

  /** Whatever happened since it was claimed, a cascade configures its peer with the registered keys. */
  lemma CascadeReadsIntactKeys(events: seq<Event>, w: World, a: nat)
    requires Runs(Start, events, w) && a < |w.starts| && Unfinished(w.starts[a])
    ensures a < |w.g.attempts| && w.g.attempts[a].config < |w.g.configs| && |w.material| == |w.g.configs|
    ensures Intact(w.g.configs[w.g.attempts[a].config], w.material[w.g.attempts[a].config])
  {
    StartInv();
    RunsKeepInv(Start, events, w);
    assert a in Claims(w.starts, w.g.attempts, w.g.attempts[a].config);
  }

  /** Every runtime published is the active tunnel or was handed to exactly one stop, never both; it is
      closed at most once, by that stop. */
  lemma RuntimesAreConserved(events: seq<Event>, w: World, a: nat)
    requires Runs(Start, events, w) && a < |w.g.attempts| && w.g.attempts[a].live
    ensures w.g.activeTunnel == Some(a) <==> !Handed(w.stops, a)
    ensures forall t: nat, u: nat :: HandedTo(w.stops, a, t) && HandedTo(w.stops, a, u) ==> t == u
    ensures Distinct(w.closed)
    ensures a in w.closed <==> exists t: nat :: HandedTo(w.stops, a, t) && PastClose(w.stops[t])
  {
    StartInv();
    RunsKeepInv(Start, events, w);
  }

  /** goLive never overwrites a running tunnel. */
  lemma PublishingNeverOverwrites(events: seq<Event>, w: World, a: nat)
    requires Runs(Start, events, w) && a < |w.starts| && w.starts[a] == Walking(true)
    ensures a < |w.g.attempts|
    ensures GoLive(w.g, a).1 ==> w.g.activeTunnel.None?
  {
    StartInv();
    RunsKeepInv(Start, events, w);
  }

  /** No status is written by `a` from position `from` on. */
  ghost predicate Mute(writes: seq<Write>, from: nat, a: nat) {
    forall i :: from <= i < |writes| ==> writes[i].writer != ByAttempt(a)
  }

  ghost predicate Quiet(w: World, from: nat, a: nat) {
    Silent(w.starts, w.g.attempts, a) && w.g.activeTunnel != Some(a) && from <= |w.writes| && Mute(w.writes, from, a)
  }

  lemma QuietStays(w: World, e: Event, from: nat, a: nat)
    requires Inv(w) && Enabled(w, e) && Quiet(w, from, a)
    ensures Quiet(Next(w, e), from, a)
  {
    hide Counted, KeysKept, Owned, ClosedOnce, TakenIsSilent, StatusTruthful, Farewell, SetPrepared;
  }

  lemma {:induction false} QuietForGood(w: World, events: seq<Event>, v: World, from: nat, a: nat)
    requires Inv(w) && Runs(w, events, v) && Quiet(w, from, a)
    ensures Quiet(v, from, a)
    decreases |events|
  {
    if events != [] {
      hide Inv, Next, Enabled, Quiet;
      NextKeeps(w, events[0]);
      QuietStays(w, events[0], from, a);
      QuietForGood(Next(w, events[0]), events[1..], v, from, a);
    }
  }

  /** Once a stop has detached, no start claimed before it is ever the active tunnel or writes a status again. */
  lemma StopSilencesEarlierStarts(before: seq<Event>, w: World, forSwitch: bool, after: seq<Event>, v: World, a: nat)
    requires Runs(Start, before, w) && a < |w.starts|
    requires Shape(w) && Runs(Next(w, Event.Detach(forSwitch)), after, v)
    ensures v.g.activeTunnel != Some(a)
    ensures Mute(v.writes, |w.writes|, a)
  {
    StartInv();
    RunsKeepInv(Start, before, w);
    DetachKeeps(w, forSwitch);
    QuietForGood(Next(w, Event.Detach(forSwitch)), after, v, |w.writes|, a);
  }

  /** What a start writes names its own config. */
  ghost predicate Labelled(writes: seq<Write>, attempts: seq<Attempt>) {
    forall i :: 0 <= i < |writes| && writes[i].writer.ByAttempt? ==>
      && writes[i].writer.a < |attempts| && !writes[i].status.Disconnected?
      && writes[i].status.server == attempts[writes[i].writer.a].config
  }

  lemma LabelledStays(w: World, e: Event)
    requires Inv(w) && Enabled(w, e) && Labelled(w.writes, w.g.attempts)
    ensures Labelled(Next(w, e).writes, Next(w, e).g.attempts)
  {
    hide Counted, KeysKept, Owned, ClosedOnce, TakenIsSilent, StatusTruthful, StartingIs, Farewell, SetPrepared;
  }

  lemma {:induction false} RunsLabel(w: World, events: seq<Event>, v: World)
    requires Inv(w) && Runs(w, events, v) && Labelled(w.writes, w.g.attempts)
    ensures Labelled(v.writes, v.g.attempts)
    decreases |events|
  {
    if events != [] {
      hide Inv, Next, Enabled, Labelled;
      NextKeeps(w, events[0]);
      LabelledStays(w, events[0]);
      RunsLabel(Next(w, events[0]), events[1..], v);
    }
  }

  ghost predicate IsUp(g: Globals, a: nat) {
    a < |g.attempts| && g.attempts[a].live
  }

  /** A stored `connected` names the config of the active tunnel, or of the tunnel a stop has just
      taken and is about to announce as going down. */
  lemma ConnectedIsTrue(events: seq<Event>, w: World)
    requires Runs(Start, events, w) && w.g.currentStatus.ConnectedTo?
    ensures exists a: nat ::
      IsUp(w.g, a) && w.g.attempts[a].config == w.g.currentStatus.server &&
      (w.g.activeTunnel == Some(a) || exists t: nat :: AboutToCorrect(w.stops, t, a))
  {
    StartInv();
    RunsKeepInv(Start, events, w);
    RunsLabel(Start, events, w);
    var a := w.writes[|w.writes| - 1].writer.a;
    assert IsUp(w.g, a) && w.g.attempts[a].config == w.g.currentStatus.server;
  }

  /** A stop that returns without timing out leaves nothing behind: the start it cancelled has let go
      of everything and the tunnel it took is closed. */
  lemma StopLeavesNothing(events: seq<Event>, w: World, t: nat)
    requires Runs(Start, events, w) && t < |w.stops| && w.stops[t].pc == Finished && !w.stops[t].timedOut
    ensures w.stops[t].pending.Some? ==> w.stops[t].pending.value < |w.starts| && w.starts[w.stops[t].pending.value] == Gone
    ensures w.stops[t].tunnel.Some? ==> w.stops[t].tunnel.value in w.closed && w.g.activeTunnel != w.stops[t].tunnel
  {
    StartInv();
    RunsKeepInv(Start, events, w);
    if w.stops[t].tunnel.Some? {
      assert HandedTo(w.stops, w.stops[t].tunnel.value, t);
    }
  }

  ghost predicate TwoCascades(events: seq<Event>, w: World) {
    Runs(Start, events, w) && |w.g.configs| == 1 && w.g.configs[0].starts == 2
  }

  lemma RunsLast(w: World, events: seq<Event>, v: World, e: Event)
    requires Runs(w, events, v) && Shape(v) && Enabled(v, e)
    ensures Runs(w, events + [e], Next(v, e))
    decreases |events|
  {
    if events == [] {
      assert Runs(Next(v, e), [], Next(v, e));
    } else {
      assert (events + [e])[1..] == events[1..] + [e];
      RunsLast(Next(w, events[0]), events[1..], v, e);
    }
  }

  /** The world after one prepare, with the starts and the stop given. */
  ghost function Prepared(key: Bytes, count: nat, starting: Option<nat>, attempts: seq<Attempt>, starts: seq<StartPc>, stops: seq<Stopper>): World {
    World(Globals(Some(0), starting, None, Disconnected, 0, Some(0), [Config(key, [], count)], attempts),
      starts, stops, [Preparer(0, Some(0), true)], [(key, [])], [], [])
  }

  lemma PrepareStep(key: Bytes)
    ensures var w := World(Boot.(identity := Some(0)), [], [], [Preparer(0, Some(0), false)], [], [], []);
      Shape(w) && Enabled(w, EndPrepare(0, key, [])) && Next(w, EndPrepare(0, key, [])) == Prepared(key, 0, None, [], [], [])
  {
  }

  lemma OnePrepare(key: Bytes) returns (events: seq<Event>)
    ensures Runs(Start, events, Prepared(key, 0, None, [], [], []))
  {
    var w1 := Start.(g := Boot.(identity := Some(0)));
    var w2 := w1.(prepares := [Preparer(0, Some(0), false)]);
    assert Runs(Start, [], Start);
    RunsLast(Start, [], Start, Event.IdentityChanges(Some(0)));
    events := [Event.IdentityChanges(Some(0))];
    assert [] + events == events;
    hide Runs;
    assert Next(Start, Event.IdentityChanges(Some(0))) == w1;
    RunsLast(Start, events, w1, Event.BeginPrepare);
    events := events + [Event.BeginPrepare];
    assert Next(w1, Event.BeginPrepare) == w2;
    PrepareStep(key);
    RunsLast(Start, events, w2, EndPrepare(0, key, []));
    events := events + [EndPrepare(0, key, [])];
  }

  lemma OneCascade(key: Bytes) returns (events: seq<Event>)
    ensures Runs(Start, events, Prepared(key, 1, Some(0), [Attempt(0, false, false, false)], [Walking(false)], []))
  {
    events := OnePrepare(key);
    hide Runs;
    var w := Prepared(key, 0, None, [], [], []);
    RunsLast(Start, events, w, Event.Claim);
    assert Next(w, Event.Claim) == Prepared(key, 1, Some(0), [Attempt(0, false, false, false)], [Walking(false)], []);
    events := events + [Event.Claim];
  }

  /** A stop that gave up its wait lets a new cascade run beside the old one, on the same keys. */
  lemma OldAndNewCascadesOverlap(key: Bytes)
    ensures exists events, w :: TwoCascades(events, w)
  {
    var events := OneCascade(key);
    hide Runs;
    var w1 := Prepared(key, 1, Some(0), [Attempt(0, false, false, false)], [Walking(false)], []);
    RunsLast(Start, events, w1, Event.Detach(false));
    events := events + [Event.Detach(false)];
    var gone := [Attempt(0, true, false, false)];
    var w2 := Prepared(key, 1, None, gone, [Walking(false)], [Stopper(false, None, Some(0), Awaiting, false)]);
    assert Next(w1, Event.Detach(false)) == w2;
    RunsLast(Start, events, w2, Event.Await(0, true));
    events := events + [Event.Await(0, true)];
    var w3 := Prepared(key, 1, None, gone, [Walking(false)], [Stopper(false, None, Some(0), Deciding, true)]);
    assert Next(w2, Event.Await(0, true)) == w3;
    RunsLast(Start, events, w3, Event.Claim);
    assert TwoCascades(events + [Event.Claim], Next(w3, Event.Claim));
  }

  // ---- What a start nobody stops comes to ----

  ghost predicate NoDetach(events: seq<Event>) {
    forall i :: 0 <= i < |events| ==> !events[i].Detach?
  }

  /** Attempt `a` is still in its cascade or live, and the one nobody cancelled; or it is over. */
  ghost predicate Unstopped(w: World, a: nat) {
    a < |w.starts| && a < |w.g.attempts| && (Unfinished(w.starts[a]) ==> w.g.starting == Some(a))
  }

  lemma UnstoppedStays(w: World, e: Event, a: nat)
    requires Inv(w) && Enabled(w, e) && !e.Detach? && Unstopped(w, a)
    ensures Unstopped(Next(w, e), a)
  {
    hide Counted, KeysKept, Owned, ClosedOnce, TakenIsSilent, StatusTruthful, Farewell, SetPrepared;
  }

  lemma {:induction false} UnstoppedWhileNoDetach(w: World, events: seq<Event>, v: World, a: nat)
    requires Inv(w) && Runs(w, events, v) && NoDetach(events) && Unstopped(w, a)
    ensures Inv(v) && Unstopped(v, a)
    decreases |events|
  {
    if events != [] {
      assert !events[0].Detach?;
      NextKeeps(w, events[0]);
      UnstoppedStays(w, events[0], a);
      hide Inv, Next, Enabled, Unstopped;
      UnstoppedWhileNoDetach(Next(w, events[0]), events[1..], v, a);
    }
  }

  /** A claim succeeds exactly with a config prepared, no tunnel up and no start in its cascade, but for
      starts a stop has cancelled. */
  lemma ClaimSucceedsExactlyWhen(events: seq<Event>, w: World)
    requires Runs(Start, events, w)
    ensures Shape(w)
    ensures ClaimStart(w.g).1.Ok? <==>
      w.g.prepared.Some? && w.g.activeTunnel.None?
      && forall a :: 0 <= a < |w.starts| && Unfinished(w.starts[a]) ==> w.g.attempts[a].cancelled
    ensures ClaimStart(w.g).1.Ok? ==>
      var v := Next(w, Event.Claim);
      v.starts == w.starts + [Walking(false)] && v.g.attempts == w.g.attempts + [Attempt(w.g.prepared.value, false, false, false)]
  {
    StartInv();
    RunsKeepInv(Start, events, w);
    hide Counted, KeysKept, Owned, ClosedOnce, TakenIsSilent, StatusTruthful;
  }

  /** A start no stop has met since its claim goes live as soon as its transport carries traffic, becomes
      the active tunnel, and its reports are the stored status until then and after. */
  lemma UnstoppedStartGoesLive(before: seq<Event>, w: World, after: seq<Event>, v: World, s: Status)
    requires Runs(Start, before, w) && Shape(w) && ClaimStart(w.g).1.Ok?
    requires Runs(Next(w, Event.Claim), after, v) && NoDetach(after) && Shape(v)
    ensures var a := |w.starts|;
      Enabled(v, Event.Publish(a)) ==>
        var u := Next(v, Event.Publish(a));
        a < |u.starts| && a < |u.g.attempts| && u.g.activeTunnel == Some(a) && u.g.attempts[a].live && u.starts[a] == WentLive
    ensures Enabled(v, Event.Report(|w.starts|, s)) ==> Next(v, Event.Report(|w.starts|, s)).g.currentStatus == s
  {
    StartInv();
    RunsKeepInv(Start, before, w);
    ClaimKeeps(w);
    assert Unstopped(Next(w, Event.Claim), |w.starts|) by { hide Counted, KeysKept, Owned, ClosedOnce, TakenIsSilent, StatusTruthful; }
    UnstoppedWhileNoDetach(Next(w, Event.Claim), after, v, |w.starts|);
    hide Counted, KeysKept, Owned, ClosedOnce, TakenIsSilent, StatusTruthful;
  }

  /** Cancelled before it went live. */
  ghost predicate Stillborn(w: World, a: nat) {
    a < |w.starts| && a < |w.g.attempts| && w.g.attempts[a].cancelled && !w.g.attempts[a].live && !w.starts[a].WentLive?
  }

  lemma StillbornStays(w: World, e: Event, a: nat)
    requires Inv(w) && Enabled(w, e) && Stillborn(w, a)
    ensures Stillborn(Next(w, e), a)
  {
    hide Counted, KeysKept, Owned, ClosedOnce, TakenIsSilent, StatusTruthful, StartingIs, Farewell, SetPrepared;
  }

  lemma {:induction false} StillbornForGood(w: World, events: seq<Event>, v: World, a: nat)
    requires Inv(w) && Runs(w, events, v) && Stillborn(w, a)
    ensures Stillborn(v, a)
    decreases |events|
  {
    if events != [] {
      NextKeeps(w, events[0]);
      StillbornStays(w, events[0], a);
      hide Inv, Next, Enabled, Stillborn;
      StillbornForGood(Next(w, events[0]), events[1..], v, a);
    }
  }

  /** A stop takes the start in its cascade, and a start taken there never goes live. */
  lemma StoppedStartNeverGoesLive(before: seq<Event>, w: World, forSwitch: bool, after: seq<Event>, v: World, a: nat)
    requires Runs(Start, before, w) && Shape(w) && a < |w.starts| && w.starts[a].Walking? && !w.g.attempts[a].cancelled
    requires Runs(Next(w, Event.Detach(forSwitch)), after, v)
    ensures Next(w, Event.Detach(forSwitch)).stops == w.stops + [Stopper(forSwitch, w.g.activeTunnel, Some(a), Awaiting, false)]
    ensures a < |v.starts| && a < |v.g.attempts| && !v.g.attempts[a].live && !v.starts[a].WentLive?
  {
    StartInv();
    RunsKeepInv(Start, before, w);
    DetachKeeps(w, forSwitch);
    assert Stillborn(Next(w, Event.Detach(forSwitch)), a) by { hide Counted, KeysKept, Owned, ClosedOnce, TakenIsSilent, StatusTruthful; }
    StillbornForGood(Next(w, Event.Detach(forSwitch)), after, v, a);
    hide Counted, KeysKept, Owned, ClosedOnce, TakenIsSilent, StatusTruthful;
  }

  /** A start may say that it connects or failed while on its way, that it is connected once it is live, and
      that it failed when torn down; each of its own config, and nothing else. */
  lemma StartsReport(w: World, a: nat, s: Status)
    requires Shape(w) && a < |w.starts|
    ensures var config := w.g.attempts[a].config;
      Enabled(w, Event.Report(a, s)) <==>
        (s == Connecting(config) && w.starts[a].Walking?) || (s == ConnectedTo(config) && w.starts[a].WentLive?)
        || (s == TunnelState.Failed(config) && (w.starts[a].Walking? || w.starts[a].TornDown?))
  {
  }

  /** A run to a tunnel that is up and says so. */
  lemma AStartConnects(key: Bytes)
    ensures exists events, w :: ConnectedRun(events, w)
  {
    var events := OneCascade(key);
    hide Runs;
    var live := [Attempt(0, false, true, false)];
    var w1 := Prepared(key, 1, Some(0), [Attempt(0, false, false, false)], [Walking(false)], []);
    var w2 := w1.(starts := [Walking(true)]);
    assert Next(w1, Event.DeviceUp(0)) == w2;
    RunsLast(Start, events, w1, Event.DeviceUp(0));
    events := events + [Event.DeviceUp(0)];
    var w3 := w2.(starts := [WentLive], g := w2.g.(activeTunnel := Some(0), attempts := live));
    assert Next(w2, Event.Publish(0)) == w3;
    RunsLast(Start, events, w2, Event.Publish(0));
    events := events + [Event.Publish(0)];
    RunsLast(Start, events, w3, Event.Report(0, ConnectedTo(0)));
    assert ConnectedRun(events + [Event.Report(0, ConnectedTo(0))], Next(w3, Event.Report(0, ConnectedTo(0))));
  }

  ghost predicate ConnectedRun(events: seq<Event>, w: World) {
    Runs(Start, events, w) && w.g.currentStatus == ConnectedTo(0) && w.g.activeTunnel == Some(0)
  }

  // ---- A prepare and its session ----

  /** The ends of a session along a run. */
  function Endings(events: seq<Event>): nat {
    if events == [] then 0 else (if events[0].SessionEnds? || events[0].WipeMemory? then 1 else 0) + Endings(events[1..])
  }

  /** A session's end moves the epoch and leaves no config prepared; a wipe also forgets the device. */
  lemma SessionEndDropsTheConfig(w: World, e: Event)
    requires Shape(w) && Enabled(w, e)
    ensures var v := Next(w, e);
      && v.g.sessionEpoch == w.g.sessionEpoch + (if e.SessionEnds? || e.WipeMemory? then 1 else 0)
      && (e.SessionEnds? || e.WipeMemory? ==> v.g.prepared.None?)
      && (e.WipeMemory? ==> v.g.identity.None? && v.g.currentStatus == Disconnected)
  {
    hide SetPrepared, Farewell;
  }

  lemma {:induction false} EndingsMoveTheEpoch(w: World, events: seq<Event>, v: World)
    requires Runs(w, events, v)
    ensures v.g.sessionEpoch == w.g.sessionEpoch + Endings(events)
    decreases |events|
  {
    if events != [] {
      SessionEndDropsTheConfig(w, events[0]);
      hide Next, Enabled;
      EndingsMoveTheEpoch(Next(w, events[0]), events[1..], v);
    }
  }

  lemma PreparerStays(w: World, e: Event, p: nat)
    requires Shape(w) && Enabled(w, e) && p < |w.prepares|
    ensures var v := Next(w, e);
      p < |v.prepares| && v.prepares[p].epoch == w.prepares[p].epoch && v.prepares[p].identity == w.prepares[p].identity
  {
    hide SetPrepared, Farewell;
  }

  lemma {:induction false} PreparerKeepsItsScope(w: World, events: seq<Event>, v: World, p: nat)
    requires Runs(w, events, v) && p < |w.prepares|
    ensures p < |v.prepares| && v.prepares[p].epoch == w.prepares[p].epoch && v.prepares[p].identity == w.prepares[p].identity
    decreases |events|
  {
    if events != [] {
      PreparerStays(w, events[0], p);
      hide Next, Enabled;
      PreparerKeepsItsScope(Next(w, events[0]), events[1..], v, p);
    }
  }

  lemma PrepareEnds(v: World, p: nat, key: Bytes, psk: Bytes)
    requires Shape(v) && Enabled(v, EndPrepare(p, key, psk))
    ensures var u := Next(v, EndPrepare(p, key, psk));
      && |u.g.configs| == |v.g.configs| + 1
      && var c := u.g.configs[|v.g.configs|];
         if v.g.sessionEpoch == v.prepares[p].epoch && v.g.identity == v.prepares[p].identity
         then u.g.prepared == Some(|v.g.configs|) && Intact(c, (key, psk))
         else u.g.prepared == v.g.prepared && Zeroed(c, (key, psk))
    ensures PublishPrepared(v.g, v.prepares[p].epoch, v.prepares[p].identity, key, psk).1 <==>
      v.g.sessionEpoch == v.prepares[p].epoch && v.g.identity == v.prepares[p].identity
  {
  }

  /** A prepare's config is prepared, keys intact, if and only if no session ended since the prepare began
      and the device is still the one it began for; else its keys are zeroed and the one prepared stays. */
  lemma PrepareLandsExactlyWhen(before: seq<Event>, w: World, events: seq<Event>, v: World, key: Bytes, psk: Bytes)
    requires Runs(Start, before, w) && Shape(w) && w.g.identity.Some? && Runs(Next(w, Event.BeginPrepare), events, v)
    requires Shape(v) && Enabled(v, EndPrepare(|w.prepares|, key, psk))
    ensures var u := Next(v, EndPrepare(|w.prepares|, key, psk));
      && |u.g.configs| == |v.g.configs| + 1
      && var c := u.g.configs[|v.g.configs|];
         if Endings(events) == 0 && v.g.identity == w.g.identity
         then u.g.prepared == Some(|v.g.configs|) && Intact(c, (key, psk))
         else u.g.prepared == v.g.prepared && Zeroed(c, (key, psk))
    ensures var p := v.prepares[|w.prepares|];
      PublishPrepared(v.g, p.epoch, p.identity, key, psk).1 <==> Endings(events) == 0 && v.g.identity == w.g.identity
  {
    var n := Next(w, Event.BeginPrepare);
    EndingsMoveTheEpoch(n, events, v);
    PreparerKeepsItsScope(n, events, v, |w.prepares|);
    hide Runs, PublishPrepared, Intact, Zeroed;
    PrepareEnds(v, |w.prepares|, key, psk);
  }

  // ---- What a stop tells ----

  /** What stop `s` may say: a switch only `connecting`, any other stop never that. */
  ghost predicate MaySay(s: Stopper, said: Status) {
    if s.forSwitch then said.Connecting? else said.Disconnecting? || said.Disconnected?
  }

  ghost predicate SaidBy(w: World, t: nat, said: Status) {
    Write(ByStopper(t), said) in w.writes
  }

  ghost predicate SaysRight(w: World) {
    && (forall i :: 0 <= i < |w.writes| && w.writes[i].writer.ByStopper? ==>
         w.writes[i].writer.t < |w.stops| && MaySay(w.stops[w.writes[i].writer.t], w.writes[i].status))
    && (forall t :: 0 <= t < |w.stops| && w.stops[t].pc.Saying? ==> MaySay(w.stops[t], w.stops[t].pc.said))
  }

  ghost predicate SaidConnecting(w: World, t: nat) {
    exists c: nat :: SaidBy(w, t, Connecting(c))
  }

  /** A stop past its announcement has made it; a plain one's last word is that the tunnel is down. */
  ghost predicate HasSaid(w: World, t: nat) {
    t < |w.stops| &&
    var s := w.stops[t];
    && (s.pc.Finished? && (s.tunnel.Some? || s.pending.Some?) ==>
         if s.forSwitch then SaidConnecting(w, t) else SaidBy(w, t, Disconnected))
    && (s.pc.Closing? && s.forSwitch ==> SaidConnecting(w, t))
    && (s.pc.Closed? ==> !s.forSwitch)
    && (s.pc.Saying? && !s.forSwitch && s.tunnel.None? ==> s.pc.said == Disconnected)
    && (s.pc.Saying? && s.forSwitch ==> s.pc.said.Connecting?)
  }

  lemma SaysRightStays(w: World, e: Event)
    requires Inv(w) && Enabled(w, e) && SaysRight(w)
    requires forall t :: 0 <= t < |w.stops| && w.stops[t].pc.Closed? ==> !w.stops[t].forSwitch
    ensures SaysRight(Next(w, e))
  {
    hide Counted, KeysKept, Owned, ClosedOnce, TakenIsSilent, StatusTruthful, StartingIs, SetPrepared;
  }

  lemma SaidLasts(w: World, v: World, t: nat)
    requires HasSaid(w, t) && t < |v.stops| && v.stops[t] == w.stops[t] && w.writes <= v.writes
    ensures HasSaid(v, t)
  {
    assert forall said :: SaidBy(w, t, said) ==> SaidBy(v, t, said);
  }

  /** Every step writes on, and moves the stop it is about alone. */
  lemma StopsApart(w: World, e: Event, t: nat)
    requires Shape(w) && Enabled(w, e) && t < |w.stops|
    ensures var v := Next(w, e); w.writes <= v.writes && t < |v.stops| && (v.stops[t] == w.stops[t] || Steps(e, t))
  {
    hide SetPrepared, Farewell;
  }

  ghost predicate Steps(e: Event, t: nat) {
    match e
    case Await(u, _) => u == t
    case Decide(u) => u == t
    case Say(u) => u == t
    case Close(u) => u == t
    case LastWord(u) => u == t
    case _ => false
  }

  lemma HasSaidSteps(w: World, e: Event, t: nat)
    requires Inv(w) && Enabled(w, e) && HasSaid(w, t) && Steps(e, t)
    ensures HasSaid(Next(w, e), t)
  {
    hide Counted, KeysKept, Owned, TakenIsSilent, StatusTruthful, StartingIs;
    var v := Next(w, e);
    match e
    case Await(_, _) =>
    case Decide(_) =>
    case Say(_) =>
      assert SaidBy(v, t, w.stops[t].pc.said);
    case Close(_) =>
      assert forall said :: SaidBy(w, t, said) ==> SaidBy(v, t, said);
    case LastWord(_) =>
      assert SaidBy(v, t, Disconnected);
  }

  ghost predicate AllSaid(w: World) {
    SaysRight(w) && forall t: nat :: t < |w.stops| ==> HasSaid(w, t)
  }

  lemma AllSaidStays(w: World, e: Event)
    requires Inv(w) && Enabled(w, e) && AllSaid(w)
    ensures AllSaid(Next(w, e))
  {
    forall t | 0 <= t < |w.stops| ensures w.stops[t].pc.Closed? ==> !w.stops[t].forSwitch {
      assert HasSaid(w, t);
    }
    SaysRightStays(w, e);
    var v := Next(w, e);
    forall t: nat | t < |v.stops| ensures HasSaid(v, t) {
      if t < |w.stops| {
        StopsApart(w, e, t);
        if Steps(e, t) {
          HasSaidSteps(w, e, t);
        } else {
          SaidLasts(w, v, t);
        }
      } else {
        NewStopAwaits(w, e, t);
      }
    }
    hide Inv, Next, Enabled, SaysRight, HasSaid;
  }

  lemma NewStopAwaits(w: World, e: Event, t: nat)
    requires Shape(w) && Enabled(w, e) && |w.stops| <= t < |Next(w, e).stops|
    ensures HasSaid(Next(w, e), t)
  {
    hide SetPrepared, Farewell;
  }

  lemma {:induction false} RunsSay(w: World, events: seq<Event>, v: World)
    requires Inv(w) && Runs(w, events, v) && AllSaid(w)
    ensures AllSaid(v)
    decreases |events|
  {
    if events != [] {
      NextKeeps(w, events[0]);
      AllSaidStays(w, events[0]);
      hide Inv, Next, Enabled, AllSaid;
      RunsSay(Next(w, events[0]), events[1..], v);
    }
  }

  /** A switch says nothing but `connecting`, so the host never sees a disconnect between two servers; any
      other stop that took something says that the tunnel is down before it is finished. */
  lemma StopsSayWhatTheyDo(events: seq<Event>, w: World, t: nat)
    requires Runs(Start, events, w) && t < |w.stops|
    ensures forall said :: SaidBy(w, t, said) ==>
      if w.stops[t].forSwitch then said.Connecting? else said.Disconnecting? || said.Disconnected?
    ensures w.stops[t].pc.Finished? && (w.stops[t].tunnel.Some? || w.stops[t].pending.Some?) ==>
      if w.stops[t].forSwitch then exists c: nat :: SaidBy(w, t, Connecting(c)) else SaidBy(w, t, Disconnected)
  {
    StartInv();
    RunsSay(Start, events, w);
    assert HasSaid(w, t);
    hide Runs;
    forall said | SaidBy(w, t, said) ensures MaySay(w.stops[t], said) {
      var i :| 0 <= i < |w.writes| && w.writes[i] == Write(ByStopper(t), said);
    }
  }

  /** A switch names the server it goes to, or else what it took; a plain stop the tunnel it took. */
  lemma StopNamesItsServer(w: World, t: nat)
    requires Shape(w) && Enabled(w, Event.Decide(t)) && (w.stops[t].tunnel.Some? || w.stops[t].pending.Some?)
    ensures var s := w.stops[t];
      var taken := if s.tunnel.Some? then s.tunnel.value else s.pending.value;
      Next(w, Event.Decide(t)).stops[t].pc == Saying(
        if s.forSwitch then Connecting(if w.g.prepared.Some? then w.g.prepared.value else w.g.attempts[taken].config)
        else if s.tunnel.Some? then Disconnecting(w.g.attempts[taken].config)
        else Disconnected)
  {
  }

  // ---- The running tunnel's context ----

  ghost predicate ActiveIsAlive(w: World) {
    w.g.activeTunnel.Some? ==> w.g.activeTunnel.value < |w.g.attempts| && !w.g.attempts[w.g.activeTunnel.value].cancelled
  }

  lemma ActiveStaysAlive(w: World, e: Event)
    requires Inv(w) && Enabled(w, e) && ActiveIsAlive(w)
    ensures ActiveIsAlive(Next(w, e))
  {
    hide Counted, KeysKept, ClosedOnce, TakenIsSilent, StatusTruthful, SetPrepared, Farewell;
    if e.Close? {
      assert HandedTo(w.stops, w.stops[e.t].tunnel.value, e.t);
    }
  }

  /** The context a running tunnel's transports were started under is not done while the tunnel is the
      active one: finishing its start leaves it alone. */
  lemma {:induction false} RunningContextIsAlive(w: World, events: seq<Event>, v: World)
    requires Inv(w) && Runs(w, events, v) && ActiveIsAlive(w)
    ensures ActiveIsAlive(v)
    decreases |events|
  {
    if events != [] {
      NextKeeps(w, events[0]);
      ActiveStaysAlive(w, events[0]);
      hide Inv, Next, Enabled, ActiveIsAlive;
      RunningContextIsAlive(Next(w, events[0]), events[1..], v);
    }
  }

  /** Over any run from the start. */
  lemma ActiveTunnelIsAlive(events: seq<Event>, w: World)
    requires Runs(Start, events, w) && w.g.activeTunnel.Some?
    ensures w.g.activeTunnel.value < |w.g.attempts| && !w.g.attempts[w.g.activeTunnel.value].cancelled
  {
    StartInv();
    RunningContextIsAlive(Start, events, w);
  }
}
