/** What every run of the tunnel lifecycle keeps. */
module LifecycleRuns {
  import opened Support
  import opened Reconnect
  import opened Lifecycle

  // ---- Reading the record of effects ----

  /** The session has come up: connected, or restored, since it began or was last stopped. */
  ghost predicate EverUp(log: seq<Effect>) {
    if log == [] then false
    else
      match log[|log| - 1]
      case Began(_) => false
      case Told(TunnelStopped) => false
      case Told(Connected) => true
      case Told(Restored) => true
      case _ => EverUp(log[..|log| - 1])
  }

  /** Trouble has been told since the session began, came up or was stopped. */
  ghost predicate InOutage(log: seq<Effect>) {
    if log == [] then false
    else
      match log[|log| - 1]
      case Began(_) => false
      case Told(TunnelReconnecting) => true
      case Told(Blocked(_)) => true
      case Told(_) => false
      case _ => InOutage(log[..|log| - 1])
  }

  /** `connected` only before the session has been up, `restored` only after it was up and then
      in trouble, `reconnecting` only at the start of an outage. */
  ghost predicate TellsTruth(log: seq<Effect>) {
    log == [] ||
    var before := log[..|log| - 1];
    && TellsTruth(before)
    && match log[|log| - 1]
       case Told(Connected) => !EverUp(before)
       case Told(Restored) => EverUp(before) && InOutage(before)
       case Told(TunnelReconnecting) => !InOutage(before)
       case _ => true
  }

  ghost function Completions(log: seq<Effect>, id: nat): nat {
    if log == [] then 0
    else
      var e := log[|log| - 1];
      Completions(log[..|log| - 1], id) + if e.Completed? && e.id == id then 1 else 0
  }

  /** A prepare or a core start happens only while starting or reconnecting, and under the cycle
      its attempt began with. */
  ghost predicate InContext(e: Effect) {
    (e.Prepared? || e.CoreStarted?) ==> e.phase in {Starting, Reconnecting} && e.cycle == e.begun
  }

  lemma Snoc(log: seq<Effect>, e: Effect)
    ensures var more := log + [e];
      && EverUp(more) == (match e case Began(_) => false case Told(TunnelStopped) => false
           case Told(Connected) => true case Told(Restored) => true case _ => EverUp(log))
      && InOutage(more) == (match e case Began(_) => false case Told(TunnelReconnecting) => true
           case Told(Blocked(_)) => true case Told(_) => false case _ => InOutage(log))
      && TellsTruth(more) == (TellsTruth(log) && match e case Told(Connected) => !EverUp(log)
           case Told(Restored) => EverUp(log) && InOutage(log)
           case Told(TunnelReconnecting) => !InOutage(log) case _ => true)
      && (forall id: nat :: Completions(more, id) == Completions(log, id) + if e.Completed? && e.id == id then 1 else 0)
  {
    var more := log + [e];
    assert more[..|more| - 1] == log;
  }

  ghost predicate Record(log: seq<Effect>, everConnected: bool, outage: bool, pending: Option<Pending>, issued: nat) {
    && TellsTruth(log)
    && everConnected == EverUp(log)
    && outage == InOutage(log)
    && (forall i :: 0 <= i < |log| ==> InContext(log[i]))
    && (pending.Some? ==> pending.value.id < issued)
    && (forall id: nat :: Completions(log, id) ==
         if id < issued && !(pending.Some? && pending.value.id == id) then 1 else 0)
  }

  // ---- Timers and applies ----

  /** Each timer field names a timer of its own kind. */
  ghost predicate TimerRefs(jobs: seq<Job>, attempt: Option<nat>, recheck: Option<nat>, liveness: Option<nat>, wake: seq<nat>) {
    && (attempt.Some? ==> attempt.value < |jobs| && jobs[attempt.value].work.RunAttempt?)
    && (recheck.Some? ==> recheck.value < |jobs| && jobs[recheck.value].work.Recheck?)
    && (liveness.Some? ==> liveness.value < |jobs| && jobs[liveness.value].work.LivenessTick?)
    && (forall t :: t in wake ==> t < |jobs| && jobs[t].work.WakeCheck?)
  }

  /** An apply's watchdog is armed exactly until its completion fires. */
  ghost predicate Watchdogs(jobs: seq<Job>, applies: seq<Apply>) {
    && (forall i :: 0 <= i < |applies| ==>
         var w := applies[i].watchdog;
         w < |jobs| && jobs[w].work == Watchdog(i) && jobs[w].live == applies[i].loaded)
    && (forall j :: 0 <= j < |jobs| && jobs[j].work.Watchdog? ==>
         var i := jobs[j].work.apply;
         i < |applies| && applies[i].watchdog == j)
  }

  /** No attempt timer is live but the one held. */
  ghost predicate OnlyAttempt(jobs: seq<Job>, timer: Option<nat>) {
    forall j :: 0 <= j < |jobs| && jobs[j].work.RunAttempt? && jobs[j].live ==> timer == Some(j)
  }

  ghost predicate Older(c: Cont, cycle: nat, session: nat) {
    match c
    case BlockingApplied(s) => s < session
    case CandidateTried(_, n) => n < cycle
    case AttemptMade(_, n) => n < cycle
    case SwitchMade(n) => n < cycle
  }

  /** Every unanswered apply but `except` belongs to an older cycle or session. */
  ghost predicate OlderBut(applies: seq<Apply>, cycle: nat, session: nat, except: int) {
    forall i :: 0 <= i < |applies| && applies[i].loaded && i != except ==> Older(applies[i].cont, cycle, session)
  }

  /** The continuation the lifecycle is waiting on in its phase. */
  ghost predicate Awaited(c: Cont, phase: Phase, blockingDone: bool, cycle: nat, session: nat) {
    match phase
    case Starting =>
      if blockingDone then c.CandidateTried? && c.cycle == cycle else c == BlockingApplied(session)
    case Reconnecting => (c.AttemptMade? || c.SwitchMade?) && c.cycle == cycle
    case _ => false
  }

  /** Exactly one unanswered apply is awaited; every other one is from an older cycle or session. */
  ghost predicate AwaitsOnly(l: Lifecycle, i: nat) {
    && i < |l.applies| && l.applies[i].loaded
    && Awaited(l.applies[i].cont, l.phase, l.blockingDone, l.cycle, l.session)
    && OlderBut(l.applies, l.cycle, l.session, i)
  }

  ghost predicate NoneAwaited(l: Lifecycle) {
    OlderBut(l.applies, l.cycle, l.session, -1)
  }

  // ---- The invariant ----

  /** What no phase or cycle change can break. */
  ghost predicate Sound(l: Lifecycle) {
    && Record(l.log, l.everConnected, l.outage, l.pending, l.issued)
    && TimerRefs(l.jobs, l.attemptTimer, l.recheckTimer, l.livenessTimer, l.wakeTimers)
    && Watchdogs(l.jobs, l.applies)
    && OnlyAttempt(l.jobs, l.attemptTimer)
  }

  /** The held attempt timer is live, and is for the current cycle of a recovery. */
  ghost predicate AttemptTimer(l: Lifecycle) {
    l.attemptTimer.Some? ==>
      var t := l.attemptTimer.value;
      && l.phase == Reconnecting && t < |l.jobs| && l.jobs[t].live
      && l.jobs[t].work.RunAttempt? && l.jobs[t].work.cycle == l.cycle && l.jobs[t].work.attempt > 0
  }

  /** The policy waits for a network exactly in the waiting phase. */
  ghost predicate PolicyAgrees(l: Lifecycle) {
    && (l.phase in {Running, Reconnecting, Waiting} ==> l.blockingDone && (l.policy.waiting <==> l.phase == Waiting))
    && (l.phase == Starting ==> !l.policy.waiting)
  }

  ghost predicate PendingIffStarting(l: Lifecycle) {
    && (l.pending.Some? <==> l.phase == Starting)
    && (l.pending.Some? ==> l.pending.value.cycle == l.cycle)
  }

  /** What is in flight for the phase: one awaited apply, or an attempt timer, or nothing. */
  ghost predicate Flight(l: Lifecycle) {
    match l.phase
    case Starting => exists i :: AwaitsOnly(l, i)
    case Reconnecting => if l.attemptTimer.Some? then NoneAwaited(l) else exists i :: AwaitsOnly(l, i)
    case Stopped => OlderBut(l.applies, l.cycle, l.session + 1, -1)
    case _ => NoneAwaited(l)
  }

  ghost predicate Inv(l: Lifecycle) {
    && Sound(l) && AttemptTimer(l) && PolicyAgrees(l) && PendingIffStarting(l) && Flight(l)
    && (l.phase == Stopped ==> !l.everConnected && !l.outage)
  }

  /** Nothing is in flight for the current cycle: the state in which a step of a start or of a
      recovery decides what comes next. */
  ghost predicate Quiet(l: Lifecycle) {
    Sound(l) && l.attemptTimer.None? && NoneAwaited(l)
  }

  /** A session past its blocking routes with no start pending. */
  ghost predicate Afloat(l: Lifecycle) {
    l.blockingDone && l.pending.None?
  }

  /** No unanswered apply is from a later cycle, and none is a blocking apply of this session. */
  ghost predicate NoneLater(l: Lifecycle) {
    OlderBut(l.applies, l.cycle + 1, l.session, -1)
  }

  // ---- Timer lemmas ----

  /** Watchdogs stay as they are; every other timer may have been cancelled. */
  ghost predicate Spares(before: seq<Job>, after: seq<Job>) {
    && |before| == |after|
    && (forall j :: 0 <= j < |after| ==> after[j].work == before[j].work && (after[j].live ==> before[j].live))
    && (forall j :: 0 <= j < |after| ==> after[j].work.Watchdog? ==> after[j].live == before[j].live)
  }

  lemma CancelledSpares(before: seq<Job>, jobs: seq<Job>, t: Option<nat>)
    requires Spares(before, jobs)
    requires t.Some? && t.value < |before| ==> !before[t.value].work.Watchdog?
    ensures Spares(before, Cancelled(jobs, t))
    ensures forall timer :: OnlyAttempt(jobs, timer) ==> OnlyAttempt(Cancelled(jobs, t), timer)
    ensures OnlyAttempt(jobs, t) ==> OnlyAttempt(Cancelled(jobs, t), None)
  {
    var more := Cancelled(jobs, t);
    assert forall j :: 0 <= j < |jobs| ==> more[j].work == jobs[j].work && (more[j].live ==> jobs[j].live);
  }

  lemma {:induction false} CancelledAllSpares(before: seq<Job>, jobs: seq<Job>, ts: seq<nat>)
    requires Spares(before, jobs)
    requires forall t :: t in ts ==> t < |before| && !before[t].work.Watchdog?
    ensures Spares(before, CancelledAll(jobs, ts))
    ensures OnlyAttempt(jobs, None) ==> OnlyAttempt(CancelledAll(jobs, ts), None)
    decreases |ts|
  {
    if ts != [] {
      CancelledSpares(before, jobs, Some(ts[0]));
      assert forall t :: t in ts[1..] ==> t in ts;
      CancelledAllSpares(before, Cancelled(jobs, Some(ts[0])), ts[1..]);
    }
  }

  lemma SparesWatchdogs(before: seq<Job>, after: seq<Job>, applies: seq<Apply>)
    requires Spares(before, after) && Watchdogs(before, applies)
    ensures Watchdogs(after, applies)
  {
  }

  /** Cancelling every timer spares the watchdogs and leaves no attempt timer live. */
  lemma CancelTimersFacts(l: Lifecycle)
    requires TimerRefs(l.jobs, l.attemptTimer, l.recheckTimer, l.livenessTimer, l.wakeTimers)
    requires OnlyAttempt(l.jobs, l.attemptTimer)
    ensures var c := CancelTimers(l);
      && Spares(l.jobs, c.jobs)
      && OnlyAttempt(c.jobs, None)
  {
    var a := Cancelled(l.jobs, l.attemptTimer);
    var b := Cancelled(a, l.recheckTimer);
    CancelledSpares(l.jobs, l.jobs, l.attemptTimer);
    CancelledSpares(l.jobs, a, l.recheckTimer);
    CancelledSpares(l.jobs, b, l.livenessTimer);
    CancelledAllSpares(l.jobs, Cancelled(b, l.livenessTimer), l.wakeTimers);
  }

  lemma CancelTimersSound(l: Lifecycle)
    requires Sound(l)
    ensures var c := CancelTimers(l);
      && Sound(c) && c.attemptTimer.None?
      && c == l.(jobs := c.jobs, attemptTimer := None, recheckTimer := None, livenessTimer := None, wakeTimers := [])
  {
    CancelTimersFacts(l);
    SparesWatchdogs(l.jobs, CancelTimers(l).jobs, l.applies);
  }

  lemma ScheduleAttemptSound(l: Lifecycle, attempt: nat, after: real)
    requires Sound(l) && l.attemptTimer.None? && l.phase == Reconnecting && attempt > 0
    ensures var s := ScheduleAttempt(l, attempt, after);
      && Sound(s) && AttemptTimer(s) && s.attemptTimer.Some?
      && s == l.(jobs := s.jobs, attemptTimer := s.attemptTimer)
  {
  }

  lemma ApplySettingsSound(l: Lifecycle, fingerprint: Fingerprint, cont: Cont, env: Env)
    requires Sound(l)
    ensures Sound(ApplySettings(l, fingerprint, cont, env))
  {
  }

  function NowUp(e: Effect, everConnected: bool): bool {
    match e
    case Told(Connected) => true
    case Told(Restored) => true
    case Told(TunnelStopped) => false
    case _ => everConnected
  }

  function NowInOutage(e: Effect, outage: bool): bool {
    match e
    case Told(TunnelReconnecting) => true
    case Told(Blocked(_)) => true
    case Told(_) => false
    case _ => outage
  }

  predicate MayTell(e: Effect, everConnected: bool, outage: bool) {
    match e
    case Told(Connected) => !everConnected
    case Told(Restored) => everConnected && outage
    case Told(TunnelReconnecting) => !outage
    case _ => true
  }

  lemma RecordSnoc(log: seq<Effect>, everConnected: bool, outage: bool, pending: Option<Pending>, issued: nat, e: Effect)
    requires Record(log, everConnected, outage, pending, issued)
    requires InContext(e) && !e.Began? && !e.Completed? && MayTell(e, everConnected, outage)
    ensures Record(log + [e], NowUp(e, everConnected), NowInOutage(e, outage), pending, issued)
  {
    hide TellsTruth, EverUp, InOutage, Completions, InContext;
    Snoc(log, e);
  }

  lemma DoSound(l: Lifecycle, e: Effect)
    requires Sound(l) && InContext(e) && !e.Began? && !e.Completed? && !e.Told?
    ensures Sound(Do(l, e)) && Do(l, e) == l.(log := l.log + [e])
  {
    hide Record, TimerRefs, Watchdogs, OnlyAttempt, InContext;
    RecordSnoc(l.log, l.everConnected, l.outage, l.pending, l.issued, e);
  }

  lemma AnnounceUpSound(l: Lifecycle)
    requires Sound(l)
    ensures var t := AnnounceUp(l);
      Sound(t) && t == l.(everConnected := t.everConnected, outage := t.outage, log := t.log)
  {
    hide Record, TimerRefs, Watchdogs, OnlyAttempt;
    if !l.everConnected {
      RecordSnoc(l.log, l.everConnected, l.outage, l.pending, l.issued, Told(Connected));
    } else if l.outage {
      RecordSnoc(l.log, l.everConnected, l.outage, l.pending, l.issued, Told(Restored));
    }
  }

  lemma AnnounceTroubleSound(l: Lifecycle, failure: Failure)
    requires Sound(l)
    ensures var t := AnnounceTrouble(l, failure);
      Sound(t) && t == l.(outage := t.outage, log := t.log)
  {
    hide Record, TimerRefs, Watchdogs, OnlyAttempt;
    if failure.Terminal? {
      RecordSnoc(l.log, l.everConnected, l.outage, l.pending, l.issued, Told(Blocked(failure.reason)));
    } else if failure.Transient? && !l.outage {
      RecordSnoc(l.log, l.everConnected, l.outage, l.pending, l.issued, Told(TunnelReconnecting));
    }
  }

  lemma LivenessTickSound(l: Lifecycle)
    requires Sound(l)
    ensures var t := ScheduleLivenessTick(l);
      Sound(t) && t == l.(jobs := t.jobs, livenessTimer := t.livenessTimer)
  {
    hide Record;
    var j := Cancelled(l.jobs, l.livenessTimer);
    CancelledSpares(l.jobs, l.jobs, l.livenessTimer);
    SparesWatchdogs(l.jobs, j, l.applies);
  }

  // ---- What each step leads to ----

  lemma CameUpKeeps(l: Lifecycle, env: Env)
    requires Quiet(l) && Afloat(l) && !l.policy.waiting
    ensures Inv(CameUp(l, env)) && CameUp(l, env).phase == Running
  {
    hide Record, TimerRefs, Watchdogs, OnlyAttempt, OlderBut, ScheduleLivenessTick, AnnounceUp;
    var r := l.(phase := Running, graceUntil := Some(env.now + LIVENESS_GRACE));
    LivenessTickSound(r);
    AnnounceUpSound(ScheduleLivenessTick(r));
  }

  lemma BeginRecoveryKeeps(l: Lifecycle, after: real)
    requires Sound(l) && Afloat(l) && NoneLater(l) && !l.policy.waiting
    ensures var r := BeginRecovery(l, after); Inv(r) && r.phase == Reconnecting && r.attemptTimer.Some?
  {
    hide Record, TimerRefs, Watchdogs, OnlyAttempt, OlderBut, AnnounceTrouble, CancelTimers, ScheduleAttempt;
    AnnounceTroubleSound(l, Transient);
    var t := AnnounceTrouble(l, Transient);
    var u := t.(phase := Reconnecting, cycle := t.cycle + 1);
    CancelTimersSound(u);
    ScheduleAttemptSound(CancelTimers(u), 1, after);
  }

  lemma EnterWaitingKeeps(l: Lifecycle)
    requires Sound(l) && Afloat(l) && NoneLater(l)
    requires l.phase == Waiting ==> Inv(l.(policy := l.policy.MarkWaiting()))
    ensures Inv(EnterWaiting(l)) && EnterWaiting(l).phase == Waiting
  {
    hide Record, TimerRefs, Watchdogs, OnlyAttempt, OlderBut, AnnounceTrouble, CancelTimers, Do;
    if l.phase != Waiting {
      var m := l.(policy := l.policy.MarkWaiting());
      var u := m.(phase := Waiting, cycle := m.cycle + 1);
      CancelTimersSound(u);
      DoSound(CancelTimers(u), CoreStopped);
      AnnounceTroubleSound(Do(CancelTimers(u), CoreStopped), Transient);
    }
  }

  lemma OlderStays(applies: seq<Apply>, cycle: nat, session: nat, except: int)
    requires OlderBut(applies, cycle, session, except)
    ensures OlderBut(applies, cycle + 1, session, except) && OlderBut(applies, cycle, session + 1, except)
  {
  }

  lemma ScheduledAttempt(l: Lifecycle, attempt: nat, after: real)
    requires Quiet(l) && Afloat(l) && !l.policy.waiting && l.phase == Reconnecting && attempt > 0
    ensures Inv(ScheduleAttempt(l, attempt, after))
  {
    hide Record, TimerRefs, Watchdogs, OnlyAttempt, OlderBut, ScheduleAttempt;
    ScheduleAttemptSound(l, attempt, after);
  }

  lemma RetryKeeps(l: Lifecycle, attempt: nat, e: Error)
    requires Quiet(l) && Afloat(l) && !l.policy.waiting && l.phase == Reconnecting
    ensures Inv(Retry(l, attempt, e)) && Retry(l, attempt, e).phase in {Reconnecting, Waiting}
  {
    hide Inv, Record, TimerRefs, Watchdogs, OnlyAttempt, OlderBut, EnterWaiting, TryAgain, RetryFailure, Missing;
    if PathDown(l) {
      OlderStays(l.applies, l.cycle, l.session, -1);
      EnterWaitingKeeps(l);
    } else {
      TryAgainKeeps(l, attempt, RetryFailure(l, e), Missing(l, e));
    }
  }

  lemma TryAgainKeeps(l: Lifecycle, attempt: nat, failure: Failure, missing: bool)
    requires Quiet(l) && Afloat(l) && !l.policy.waiting && l.phase == Reconnecting
    ensures Inv(TryAgain(l, attempt, failure, missing)) && TryAgain(l, attempt, failure, missing).phase == Reconnecting
  {
    hide Inv, Record, TimerRefs, Watchdogs, OnlyAttempt, OlderBut, AnnounceTrouble, Delay, AfterFailure;
    var cleared := if failure.Terminal? then l.(sessionReady := false) else l;
    AnnounceTroubleSound(cleared, failure);
    var told := AnnounceTrouble(cleared, failure);
    ScheduledAttempt(told.(targets := AfterFailure(told.targets, attempt, missing)), attempt + 1, Delay(failure, attempt));
  }

  lemma InvNoneLater(l: Lifecycle)
    requires Inv(l) && l.phase in {Running, Reconnecting, Waiting}
    ensures NoneLater(l) && Afloat(l)
  {
    hide Record, TimerRefs, Watchdogs, OnlyAttempt;
  }

  lemma HandleKeeps(l: Lifecycle, u: PathUpdate, env: Env)
    requires Inv(l) && l.phase in {Running, Reconnecting, Waiting}
    ensures Inv(Handle(l, u, env)) && Handle(l, u, env).phase in {Running, Reconnecting, Waiting}
  {
    hide Record, TimerRefs, Watchdogs, OnlyAttempt, OlderBut, EnterWaiting, BeginRecovery;
    InvNoneLater(l);
    var (p, d) := l.policy.PathChanged(u.key, u.usable, env.now);
    var h := l.(policy := p);
    match d
    case Ignore => SameFlight(l, h);
    case RecheckAfter(delay) => SameFlight(l, h); RecheckKeeps(h, delay);
    case WaitForNetwork => EnterWaitingKeeps(h);
    case ReconnectAfter(delay) => BeginRecoveryKeeps(h, delay);
  }

  lemma RecheckKeeps(l: Lifecycle, delay: real)
    requires Inv(l) && l.phase in {Running, Reconnecting, Waiting}
    ensures var j := Cancelled(l.jobs, l.recheckTimer);
      Inv(l.(jobs := j + [Job(Recheck, delay, true)], recheckTimer := Some(|j|)))
  {
    hide Record, OlderBut;
    var j := Cancelled(l.jobs, l.recheckTimer);
    CancelledSpares(l.jobs, l.jobs, l.recheckTimer);
    SparesWatchdogs(l.jobs, j, l.applies);
    var m := j + [Job(Recheck, delay, true)];
    assert TimerRefs(m, l.attemptTimer, Some(|j|), l.livenessTimer, l.wakeTimers);
    assert Watchdogs(m, l.applies);
    assert OnlyAttempt(m, l.attemptTimer);
    SameFlight(l, l.(jobs := m, recheckTimer := Some(|j|)));
  }

  /** What is in flight depends on the applies, the phase and the counters alone. */
  lemma SameFlight(l: Lifecycle, m: Lifecycle)
    requires Flight(l)
    requires m.phase == l.phase && m.blockingDone == l.blockingDone && m.cycle == l.cycle && m.session == l.session
    requires m.applies == l.applies && (m.attemptTimer.Some? <==> l.attemptTimer.Some?)
    ensures Flight(m)
  {
    hide OlderBut;
    if i :| AwaitsOnly(l, i) {
      assert AwaitsOnly(m, i);
    }
  }

  // ---- Establishing ----

  lemma StartCoreKeeps(l: Lifecycle, settingsError: Option<Error>, current: nat, fd: int, start: Option<Error>)
    requires Quiet(l) && (current == l.cycle ==> l.phase in {Starting, Reconnecting, Stopped})
    ensures var s := StartCore(l, settingsError, current, fd, start).0;
      Quiet(s) && s == l.(log := s.log)
  {
    hide Record, TimerRefs, Watchdogs, OnlyAttempt, OlderBut;
    var e := CoreStarted(l.phase, l.cycle, current);
    if StartCore(l, settingsError, current, fd, start).0 != l {
      DoSound(l, e);
    }
  }

  /** Two states at the same point of a start or recovery. */
  ghost predicate SameStage(l: Lifecycle, m: Lifecycle) {
    && m.phase == l.phase && m.blockingDone == l.blockingDone && m.pending == l.pending
    && m.cycle == l.cycle && m.session == l.session && m.policy.waiting == l.policy.waiting
    && m.attemptTimer == l.attemptTimer && m.latest == l.latest
  }

  /** An apply handed to the system becomes the one awaited. */
  lemma ApplySettingsAwaited(l: Lifecycle, fingerprint: Fingerprint, cont: Cont, env: Env)
    requires Quiet(l) && Awaited(cont, l.phase, l.blockingDone, l.cycle, l.session)
    ensures var a := ApplySettings(l, fingerprint, cont, env);
      Sound(a) && SameStage(l, a) && AwaitsOnly(a, |l.applies|)
  {
    hide Record, TimerRefs, Watchdogs, OnlyAttempt;
    ApplySettingsSound(l, fingerprint, cont, env);
  }

  lemma PrepareRouteKeeps(l: Lifecycle, refused: Option<Error>)
    requires Quiet(l) && l.phase in {Starting, Reconnecting}
    ensures var r := PrepareRoute(l, refused, l.cycle).0; Quiet(r) && SameStage(l, r)
  {
    hide Record, TimerRefs, Watchdogs, OnlyAttempt, OlderBut;
    DoSound(l, Prepared(l.targets.Current(), l.phase, l.cycle, l.cycle));
  }

  lemma EnsureSessionKeeps(l: Lifecycle, answer: Result<seq<string>, Error>)
    requires Quiet(l)
    ensures var s := EnsureSession(l, answer).0; Quiet(s) && SameStage(l, s)
  {
    hide Record, TimerRefs, Watchdogs, OnlyAttempt, OlderBut, At;
  }

  lemma DoQuiet(l: Lifecycle, e: Effect)
    requires Quiet(l) && InContext(e) && !e.Began? && !e.Completed? && !e.Told?
    ensures Quiet(Do(l, e)) && SameStage(l, Do(l, e))
  {
    hide Record, TimerRefs, Watchdogs, OnlyAttempt, OlderBut, Do;
    DoSound(l, e);
  }

  lemma EstablishKeeps(l: Lifecycle, answers: Answers, cont: Cont, switching: bool, env: Env)
    requires Quiet(l) && l.phase in {Starting, Reconnecting}
    requires Awaited(cont, l.phase, l.blockingDone, l.cycle, l.session)
    ensures var (s, o) := Establish(l, answers, cont, l.cycle, switching, env);
      && SameStage(l, s)
      && (o.InFlight? ==> Sound(s) && exists i :: AwaitsOnly(s, i))
      && (o.Done? ==> Quiet(s))
  {
    hide Quiet, Sound, ApplySettings, StartCore, PrepareRoute, EnsureSession, Do, Awaited, AwaitsOnly, InContext;
    EnsureSessionKeeps(l, answers.session);
    var (s, e) := EnsureSession(l, answers.session);
    if e.None? {
      PrepareRouteKeeps(s, answers.prepare);
      var (got, refused) := PrepareRoute(s, answers.prepare, l.cycle);
      if refused.None? && answers.settings.Ok? {
        DoQuietSwitch(got);
        EstablishedKeeps(if switching then Do(got, CoreStoppedForSwitch) else got, answers, cont, env);
      }
    }
  }

  lemma DoQuietSwitch(l: Lifecycle)
    requires Quiet(l)
    ensures Quiet(Do(l, CoreStoppedForSwitch)) && SameStage(l, Do(l, CoreStoppedForSwitch))
  {
    hide Quiet, Sound, Do;
    DoQuiet(l, CoreStoppedForSwitch);
  }

  lemma EstablishedKeeps(l: Lifecycle, answers: Answers, cont: Cont, env: Env)
    requires Quiet(l) && l.phase in {Starting, Reconnecting} && answers.settings.Ok?
    requires Awaited(cont, l.phase, l.blockingDone, l.cycle, l.session)
    ensures var s := StartCore(l, None, l.cycle, answers.fd, answers.start).0; Quiet(s) && SameStage(l, s)
    ensures var a := ApplySettings(l, answers.settings.value, cont, env);
      Sound(a) && SameStage(l, a) && exists i :: AwaitsOnly(a, i)
  {
    hide Record, TimerRefs, Watchdogs, OnlyAttempt, OlderBut, ApplySettings, StartCore;
    StartCoreKeeps(l, None, l.cycle, answers.fd, answers.start);
    ApplySettingsAwaited(l, answers.settings.value, cont, env);
  }

  // ---- The start sequence ----

  lemma CompletedSound(l: Lifecycle, error: Option<Error>)
    requires Sound(l) && l.pending.Some?
    ensures Sound(Do(l.(pending := None), Completed(l.pending.value.id, error)))
  {
    hide TimerRefs, Watchdogs, OnlyAttempt;
    Snoc(l.log, Completed(l.pending.value.id, error));
  }

  /** A start on its way past the blocking routes, nothing in flight for it. */
  ghost predicate AtStart(l: Lifecycle) {
    Quiet(l) && l.phase == Starting && PendingIffStarting(l) && !l.policy.waiting
  }

  lemma FailStartKeeps(l: Lifecycle, e: Error)
    requires AtStart(l)
    ensures Inv(FailStart(l.(pending := None), e, l.pending.value))
    ensures FailStart(l.(pending := None), e, l.pending.value).phase == Idle
  {
    hide Record, TimerRefs, Watchdogs, OnlyAttempt, OlderBut, CancelTimers;
    CompletedSound(l, Some(e));
    var done := Do(l.(pending := None), Completed(l.pending.value.id, Some(e))).(phase := Idle);
    CancelTimersSound(done);
    CancelThenDo(l.(pending := None, phase := Idle), Completed(l.pending.value.id, Some(e)));
  }

  lemma CancelThenDo(l: Lifecycle, e: Effect)
    ensures Do(CancelTimers(l), e) == CancelTimers(Do(l, e))
  {
  }

  lemma FinishStartKeeps(l: Lifecycle, error: Option<Error>, env: Env)
    requires AtStart(l) && (error.None? ==> l.blockingDone)
    ensures Inv(FinishStart(l, error, l.cycle, env)) && FinishStart(l, error, l.cycle, env).phase != Starting
  {
    hide Inv, Record, TimerRefs, Watchdogs, OnlyAttempt, OlderBut, FailStart, GoOn, Succeeded;
    var done := l.(pending := None);
    if error.Some? && !ContinuesBlocked(done, error.value) {
      FailStartKeeps(l, error.value);
    } else {
      SucceededKeeps(l);
      GoOnKeeps(Succeeded(done, l.pending.value), error, env);
    }
  }

  lemma SucceededKeeps(l: Lifecycle)
    requires AtStart(l)
    ensures var s := Succeeded(l.(pending := None), l.pending.value);
      Quiet(s) && s.pending.None? && s.blockingDone == l.blockingDone && !s.policy.waiting
  {
    hide Record, TimerRefs, Watchdogs, OnlyAttempt, OlderBut;
    CompletedSound(l, None);
  }

  lemma GoOnKeeps(l: Lifecycle, error: Option<Error>, env: Env)
    requires Quiet(l) && Afloat(l) && !l.policy.waiting
    ensures Inv(GoOn(l, error, env)) && GoOn(l, error, env).phase in {Running, Reconnecting, Waiting}
  {
    hide Inv, Record, TimerRefs, Watchdogs, OnlyAttempt, OlderBut, Retry, CameUp, Handle;
    if error.Some? {
      RetryKeeps(l.(phase := Reconnecting), 1, error.value);
    } else {
      CameUpKeeps(l, env);
    }
    var up := if error.Some? then Retry(l.(phase := Reconnecting), 1, error.value) else CameUp(l, env);
    if up.latest.Some? {
      HandleKeeps(up, up.latest.value, env);
    }
  }

  lemma TryCandidateKeeps(l: Lifecycle, index: nat, env: Env)
    requires AtStart(l) && l.blockingDone
    ensures Inv(TryCandidate(l, index, l.cycle, env))
    decreases !l.sessionReady, CandidatesLeft(l, index), 1
  {
    hide Record, TimerRefs, Watchdogs, OnlyAttempt, OlderBut, CandidateFinished;
    var t := l.(targets := At(l.targets.ids, index));
    var cont := CandidateTried(index, l.cycle);
    EstablishKeeps(t, env.establish(index), cont, false, env);
    var (s, o) := Establish(t, env.establish(index), cont, l.cycle, false, env);
    if o.Done? {
      CandidateFinishedKeeps(s, index, o.error, env);
    }
  }

  lemma CandidateFinishedKeeps(l: Lifecycle, index: nat, error: Option<Error>, env: Env)
    requires AtStart(l) && l.blockingDone
    ensures Inv(CandidateFinished(l, index, error, l.cycle, env))
    decreases !l.sessionReady, CandidatesLeft(l, index), 0
  {
    hide Inv, Record, TimerRefs, Watchdogs, OnlyAttempt, OlderBut, TryCandidate, FinishStart;
    if error.Some? && index + 1 < |l.targets.ids| && WorthNextCandidate(error.value) {
      TryCandidateKeeps(l, index + 1, env);
    } else {
      FinishStartKeeps(l, error, env);
    }
  }

  lemma RunStartSequenceKeeps(l: Lifecycle, env: Env)
    requires AtStart(l) && l.blockingDone
    ensures Inv(RunStartSequence(l, l.cycle, env))
  {
    hide Inv, Record, TimerRefs, Watchdogs, OnlyAttempt, OlderBut, TryCandidate, FinishStart;
    var (s, e) := EnsureSession(l, env.session);
    if e.Some? {
      FinishStartKeeps(s, e, env);
    } else {
      TryCandidateKeeps(s, 0, env);
    }
  }

  // ---- Answers to settings applies ----

  /** Firing a once-only completion disarms its watchdog and changes nothing else that matters. */
  lemma FiredSound(l: Lifecycle, id: nat)
    requires Sound(l) && id < |l.applies| && l.applies[id].loaded
    ensures Sound(l.(jobs := Cancelled(l.jobs, Some(l.applies[id].watchdog)),
                     applies := l.applies[id := l.applies[id].(loaded := false)]))
  {
    hide Record;
    var w := l.applies[id].watchdog;
    var jobs := Cancelled(l.jobs, Some(w));
    var applies := l.applies[id := l.applies[id].(loaded := false)];
    assert jobs == l.jobs[w := l.jobs[w].(live := false)];
    assert Watchdogs(jobs, applies);
  }

  lemma AwaitedFires(l: Lifecycle, id: nat, error: Option<Error>, env: Env)
    requires Inv(l) && AwaitsOnly(l, id)
    ensures var c := Unloaded(l.(jobs := Cancelled(l.jobs, Some(l.applies[id].watchdog))), id, error, env.now);
      Quiet(c) && SameStage(l, c)
  {
    hide Record, TimerRefs, Watchdogs, OnlyAttempt;
    FiredSound(l, id);
  }

  lemma AwaitedAnswered(l: Lifecycle, id: nat, error: Option<Error>, env: Env)
    requires Inv(l) && AwaitsOnly(l, id)
    ensures Inv(SettingsAnswered(l.(jobs := Cancelled(l.jobs, Some(l.applies[id].watchdog))), id, error, env))
  {
    hide Record, TimerRefs, Watchdogs, OnlyAttempt, OlderBut, StartCore, RunStartSequence, FinishStart, CandidateFinished, Retry, CameUp;
    AwaitedFires(l, id, error, env);
    var c := Unloaded(l.(jobs := Cancelled(l.jobs, Some(l.applies[id].watchdog))), id, error, env.now);
    var passed := ProceedingPastTimeout(error);
    match l.applies[id].cont
    case BlockingApplied(session) =>
      if passed.Some? {
        FinishStartKeeps(c, passed, env);
      } else {
        RunStartSequenceKeeps(c.(blockingDone := true), env);
      }
    case CandidateTried(index, cycle) =>
      StartCoreKeeps(c, passed, cycle, env.fd, env.start);
      var (s, e) := StartCore(c, passed, cycle, env.fd, env.start);
      CandidateFinishedKeeps(s, index, e, env);
    case AttemptMade(attempt, cycle) =>
      StartCoreKeeps(c, passed, cycle, env.fd, env.start);
      var (s, e) := StartCore(c, passed, cycle, env.fd, env.start);
      RecoveryStepKeeps(s, attempt, e, env);
    case SwitchMade(cycle) =>
      StartCoreKeeps(c, passed, cycle, env.fd, env.start);
      var (s, e) := StartCore(c, passed, cycle, env.fd, env.start);
      RecoveryStepKeeps(s, 1, e, env);
  }

  /** An attempt or a switch that finished for the current cycle. */
  lemma RecoveryStepKeeps(l: Lifecycle, attempt: nat, error: Option<Error>, env: Env)
    requires Quiet(l) && Afloat(l) && !l.policy.waiting && l.phase == Reconnecting
    ensures Inv(AttemptFinished(l, attempt, l.cycle, error, env))
    ensures SwitchFinished(l, error, l.cycle, env) == AttemptFinished(l, 1, l.cycle, error, env)
  {
    hide Inv, Record, TimerRefs, Watchdogs, OnlyAttempt, OlderBut, Retry, CameUp;
    if error.None? {
      CameUpKeeps(l, env);
    } else {
      RetryKeeps(l, attempt, error.value);
    }
  }

  /** Nothing unanswered is from beyond the current cycle and session. */
  lemma InvAllBelow(l: Lifecycle)
    requires Inv(l)
    ensures OlderBut(l.applies, l.cycle + 1, l.session + 1, -1)
    ensures l.phase != Stopped && !(l.phase == Starting && !l.blockingDone) ==> NoneLater(l)
  {
    hide Record, TimerRefs, Watchdogs, OnlyAttempt;
  }

  /** Main result: an answer nobody waits for any more is inert. Whatever it says, and whether it
      comes from the system or from its watchdog, it starts nothing, prepares nothing, completes
      nothing and moves no phase, cycle or timer. */
  lemma StaleAnswerIsInert(l: Lifecycle, id: nat, error: Option<Error>, env: Env)
    requires Inv(l) && id < |l.applies| && l.applies[id].loaded && !AwaitsOnly(l, id)
    ensures var c := l.(jobs := Cancelled(l.jobs, Some(l.applies[id].watchdog)));
      SettingsAnswered(c, id, error, env) == Unloaded(c, id, error, env.now)
  {
    hide Record, TimerRefs, Watchdogs, OnlyAttempt;
    assert Older(l.applies[id].cont, l.cycle, l.session) || (l.phase == Stopped && l.applies[id].cont.BlockingApplied?);
  }

  lemma StaleFiredKeeps(l: Lifecycle, id: nat, error: Option<Error>, env: Env)
    requires Inv(l) && id < |l.applies| && l.applies[id].loaded && !AwaitsOnly(l, id)
    ensures Inv(Unloaded(l.(jobs := Cancelled(l.jobs, Some(l.applies[id].watchdog))), id, error, env.now))
  {
    hide Record, TimerRefs, Watchdogs, OnlyAttempt;
    FiredSound(l, id);
    var c := Unloaded(l.(jobs := Cancelled(l.jobs, Some(l.applies[id].watchdog))), id, error, env.now);
    if i :| AwaitsOnly(l, i) {
      assert AwaitsOnly(c, i);
    }
    assert AttemptTimer(c) by {
      WatchdogIsNoAttempt(l, id);
    }
  }

  lemma WatchdogIsNoAttempt(l: Lifecycle, id: nat)
    requires Watchdogs(l.jobs, l.applies) && id < |l.applies|
    ensures l.applies[id].watchdog < |l.jobs| && !l.jobs[l.applies[id].watchdog].work.RunAttempt?
    ensures l.jobs[l.applies[id].watchdog].live == l.applies[id].loaded
  {
  }

  lemma CallbackKeeps(l: Lifecycle, id: nat, error: Option<Error>, env: Env)
    requires Inv(l) && id < |l.applies|
    ensures Inv(OnCallback(l, id, error, env))
    ensures !l.applies[id].loaded ==> OnCallback(l, id, error, env) == l
  {
    hide Record, TimerRefs, Watchdogs, OnlyAttempt, OlderBut, SettingsAnswered;
    WatchdogIsNoAttempt(l, id);
    if l.applies[id].loaded {
      if AwaitsOnly(l, id) {
        AwaitedAnswered(l, id, error, env);
      } else {
        StaleAnswerIsInert(l, id, error, env);
        StaleFiredKeeps(l, id, error, env);
      }
    } else {
      assert Cancelled(l.jobs, Some(l.applies[id].watchdog)) == l.jobs;
    }
  }

  // ---- Timers firing ----

  /** A timer that is no attempt and no watchdog goes off. */
  lemma OtherFiredKeeps(l: Lifecycle, job: nat)
    requires Inv(l) && job < |l.jobs| && !l.jobs[job].work.Watchdog? && !l.jobs[job].work.RunAttempt?
    ensures Inv(l.(jobs := Cancelled(l.jobs, Some(job))))
  {
    hide Record, OlderBut;
    CancelledSpares(l.jobs, l.jobs, Some(job));
    SparesWatchdogs(l.jobs, Cancelled(l.jobs, Some(job)), l.applies);
    SameFlight(l, l.(jobs := Cancelled(l.jobs, Some(job))));
  }

  lemma NoRecheckTimer(l: Lifecycle)
    requires Inv(l)
    ensures Inv(l.(recheckTimer := None)) && Inv(l.(livenessTimer := None))
  {
    hide Record, OlderBut, Watchdogs, OnlyAttempt;
    SameFlight(l, l.(recheckTimer := None));
    SameFlight(l, l.(livenessTimer := None));
  }

  lemma CheckLivenessKeeps(l: Lifecycle, env: Env)
    requires Inv(l)
    ensures Inv(CheckLiveness(l, env))
  {
    hide Record, TimerRefs, Watchdogs, OnlyAttempt, OlderBut, BeginRecovery;
    if l.phase == Running && Stale(l, env) {
      InvNoneLater(l);
      BeginRecoveryKeeps(l, 0.0);
    }
  }

  lemma LivenessTickKeeps(l: Lifecycle, env: Env)
    requires Inv(l)
    ensures Inv(OnLivenessTick(l, env))
  {
    hide Record, TimerRefs, Watchdogs, OnlyAttempt, OlderBut, CheckLiveness, ScheduleLivenessTick;
    NoRecheckTimer(l);
    var t := l.(livenessTimer := None);
    if t.phase == Running {
      CheckLivenessKeeps(t, env);
      var c := CheckLiveness(t, env);
      if c.phase == Running {
        LivenessTickSound(c);
        assert ScheduleLivenessTick(c).attemptTimer == None;
      }
    }
  }

  lemma RecheckFiredKeeps(l: Lifecycle, env: Env)
    requires Inv(l)
    ensures Inv(OnRecheck(l, env))
  {
    hide Inv, Handle;
    NoRecheckTimer(l);
    var r := l.(recheckTimer := None);
    if r.phase in {Running, Reconnecting, Waiting} && r.latest.Some? {
      HandleKeeps(r, r.latest.value, env);
    }
  }

  /** The held attempt timer goes off: its attempt is for the current cycle of a recovery. */
  lemma AttemptFires(l: Lifecycle, job: nat)
    requires Inv(l) && job < |l.jobs| && l.jobs[job].live && l.jobs[job].work.RunAttempt?
    ensures var r := l.(jobs := Cancelled(l.jobs, Some(job)), attemptTimer := None);
      && l.phase == Reconnecting && l.jobs[job].work.cycle == l.cycle && l.jobs[job].work.attempt > 0
      && Quiet(r) && Afloat(r) && !r.policy.waiting
  {
    hide Record, OlderBut;
    CancelledSpares(l.jobs, l.jobs, Some(job));
    SparesWatchdogs(l.jobs, Cancelled(l.jobs, Some(job)), l.applies);
  }

  lemma RestartKeeps(l: Lifecycle, env: Env)
    requires Quiet(l) && l.phase == Reconnecting
    ensures var s := RestartInPlace(l, env).0; Quiet(s) && SameStage(l, s)
  {
    hide Quiet, Sound, Do;
    DoQuiet(l, CoreStopped);
    var s := Do(l, CoreStopped);
    DoQuiet(s, CoreStarted(s.phase, s.cycle, s.cycle));
  }

  lemma RunAttemptKeeps(l: Lifecycle, attempt: nat, env: Env)
    requires Quiet(l.(attemptTimer := None)) && Afloat(l) && !l.policy.waiting && l.phase == Reconnecting
    ensures Inv(OnRunAttempt(l, attempt, l.cycle, env))
  {
    hide Inv, Record, TimerRefs, Watchdogs, OnlyAttempt, OlderBut, EnterWaiting, RestartInPlace, Establish, AttemptFinished, Do, AwaitsOnly;
    var r := l.(attemptTimer := None);
    if PathDown(r) {
      OlderStays(r.applies, r.cycle, r.session, -1);
      EnterWaitingKeeps(r);
    } else {
      var inPlace := attempt == 1 && r.preparedExit == Some(r.targets.Current());
      RestartKeeps(r, env);
      var (s, restarted) := if inPlace then RestartInPlace(r, env) else (r, false);
      if restarted {
        RecoveryStepKeeps(s, attempt, None, env);
      } else {
        PreparedAttemptKeeps(s, attempt, env);
      }
    }
  }

  lemma PreparedAttemptKeeps(l: Lifecycle, attempt: nat, env: Env)
    requires Quiet(l) && Afloat(l) && !l.policy.waiting && l.phase == Reconnecting
    ensures var (q, o) := Establish(Do(l, CoreStopped), env.establish(0), AttemptMade(attempt, l.cycle), l.cycle, false, env);
      Inv(if o.InFlight? then q else AttemptFinished(q, attempt, l.cycle, o.error, env))
  {
    hide Record, TimerRefs, Watchdogs, OnlyAttempt, OlderBut, Establish, AttemptFinished, Do, AwaitsOnly;
    DoQuiet(l, CoreStopped);
    var d := Do(l, CoreStopped);
    EstablishKeeps(d, env.establish(0), AttemptMade(attempt, l.cycle), false, env);
    var (q, o) := Establish(d, env.establish(0), AttemptMade(attempt, l.cycle), l.cycle, false, env);
    if o.Done? {
      RecoveryStepKeeps(q, attempt, o.error, env);
    }
  }

  lemma FireKeeps(l: Lifecycle, job: nat, env: Env)
    requires Inv(l) && job < |l.jobs| && l.jobs[job].live
    ensures Inv(DoFire(l, job, env))
  {
    hide Inv, OnRunAttempt, OnRecheck, OnLivenessTick, CheckLiveness, SettingsAnswered, Cancelled;
    var fired := l.(jobs := Cancelled(l.jobs, Some(job)));
    match l.jobs[job].work
    case RunAttempt(attempt, cycle) =>
      AttemptFires(l, job);
      RunAttemptKeeps(fired, attempt, env);
    case Recheck => OtherFiredKeeps(l, job); RecheckFiredKeeps(fired, env);
    case LivenessTick => OtherFiredKeeps(l, job); LivenessTickKeeps(fired, env);
    case WakeCheck => OtherFiredKeeps(l, job); CheckLivenessKeeps(fired, env);
    case Watchdog(apply) => WatchdogIsATimeout(l, job, env); CallbackKeeps(l, apply, Some(Start(SettingsTimeout)), env);
  }

  /** The watchdog stands in for the system: its firing is the system answering with a timeout. */
  lemma WatchdogIsATimeout(l: Lifecycle, job: nat, env: Env)
    requires Inv(l) && job < |l.jobs| && l.jobs[job].live && l.jobs[job].work.Watchdog?
    ensures l.jobs[job].work.apply < |l.applies| && l.applies[l.jobs[job].work.apply].loaded
    ensures DoFire(l, job, env) == OnCallback(l, l.jobs[job].work.apply, Some(Start(SettingsTimeout)), env)
  {
    hide Record, TimerRefs, OnlyAttempt, OlderBut, SettingsAnswered, Cancelled;
    assert l.applies[l.jobs[job].work.apply].watchdog == job;
  }

  // ---- Commands ----

  lemma AbandonSound(l: Lifecycle)
    requires Sound(l)
    ensures var a := AbandonPendingStart(l);
      Sound(a) && a == l.(pending := None, log := a.log)
  {
    hide Record, TimerRefs, Watchdogs, OnlyAttempt;
    if l.pending.Some? {
      CompletedSound(l, Some(Start(StartStopped)));
    }
  }

  /** A new start on the record: the session's events are forgotten and its start is pending. */
  lemma BeganSound(l: Lifecycle, cycle: nat)
    requires Sound(l) && l.pending.None?
    ensures Sound(Do(l, Began(l.issued)).(issued := l.issued + 1, pending := Some(Pending(cycle, l.issued)),
                  everConnected := false, outage := false))
  {
    hide TimerRefs, Watchdogs, OnlyAttempt;
    Snoc(l.log, Began(l.issued));
  }

  lemma StartKeeps(l: Lifecycle, option: Option<string>, env: Env)
    requires Inv(l)
    ensures Inv(DoStart(l, option, env))
  {
    hide Inv, Record, TimerRefs, Watchdogs, OnlyAttempt, OlderBut, FinishStart, ApplySettings, AbandonPendingStart, CancelTimers, Do;
    StartedAtStart(l, option);
    var r := ResetSession(l);
    var s := Do(r.(phase := Starting, optionServer := option, issued := r.issued + 1), Began(r.issued))
      .(pending := Some(Pending(r.cycle, r.issued)));
    if env.hostAlive {
      ApplySettingsAwaited(s, env.blockingFingerprint, BlockingApplied(s.session), env);
      BlockingFlightKeeps(s, env);
    } else {
      FinishStartKeeps(s, Some(Start(StartStopped)), env);
    }
  }

  lemma BlockingFlightKeeps(s: Lifecycle, env: Env)
    requires AtStart(s) && !s.blockingDone
    ensures Inv(ApplySettings(s, env.blockingFingerprint, BlockingApplied(s.session), env))
  {
    hide Record, TimerRefs, Watchdogs, OnlyAttempt, OlderBut, AwaitsOnly, ApplySettings;
    ApplySettingsAwaited(s, env.blockingFingerprint, BlockingApplied(s.session), env);
  }

  lemma StartedAtStart(l: Lifecycle, option: Option<string>)
    requires Inv(l)
    ensures var r := ResetSession(l);
      var s := Do(r.(phase := Starting, optionServer := option, issued := r.issued + 1), Began(r.issued))
        .(pending := Some(Pending(r.cycle, r.issued)));
      AtStart(s) && !s.blockingDone
  {
    hide Record, TimerRefs, Watchdogs, OnlyAttempt, OlderBut, AbandonPendingStart, CancelTimers;
    InvAllBelow(l);
    AbandonSound(l);
    var a := AbandonPendingStart(l);
    var b := a.(cycle := a.cycle + 1, session := a.session + 1);
    CancelTimersSound(b);
    BeganSound(CancelTimers(b), b.cycle);
  }

  lemma StopKeeps(l: Lifecycle)
    requires Inv(l)
    ensures Inv(DoStop(l)) && DoStop(l).phase == Stopped
  {
    hide Record, TimerRefs, Watchdogs, OnlyAttempt, OlderBut, AbandonPendingStart, CancelTimers, Do;
    InvAllBelow(l);
    var u := l.(phase := Stopped, cycle := l.cycle + 1);
    CancelTimersSound(u);
    DoSound(CancelTimers(u), CoreStopped);
    var s := Do(CancelTimers(u), CoreStopped);
    AbandonSound(s);
    if l.phase != Stopped {
      StoppedTold(AbandonPendingStart(s));
    }
  }

  lemma StoppedTold(l: Lifecycle)
    requires Sound(l)
    ensures var t := Do(l.(everConnected := false, outage := false), Told(TunnelStopped));
      Sound(t) && t == l.(everConnected := false, outage := false, log := t.log)
  {
    hide Record, TimerRefs, Watchdogs, OnlyAttempt;
    RecordSnoc(l.log, l.everConnected, l.outage, l.pending, l.issued, Told(TunnelStopped));
  }

  lemma SupersedeKeeps(l: Lifecycle, server: string, listed: seq<string>, env: Env)
    requires Inv(l) && l.phase == Starting
    ensures Inv(SupersedeStart(l, server, listed, env))
  {
    hide TimerRefs, Watchdogs, OnlyAttempt, Retarget, RunStartSequence;
    assert Retarget(l, server, listed) == l.(targets := Retarget(l, server, listed).targets) by { RetargetFacts(l, server, listed); }
    var r := Retarget(l, server, listed);
    var s := r.(cycle := r.cycle + 1, pending := Some(Pending(r.cycle + 1, l.pending.value.id)));
    var i :| AwaitsOnly(l, i);
    RepointedRecord(l, s);
    if s.blockingDone {
      RunStartSequenceKeeps(s, env);
    } else {
      assert AwaitsOnly(s, i);
    }
  }

  lemma RetargetFacts(l: Lifecycle, server: string, listed: seq<string>)
    ensures Retarget(l, server, listed) == l.(targets := Retarget(l, server, listed).targets)
  {
  }

  /** The record does not care under which cycle the pending start waits. */
  lemma RepointedRecord(l: Lifecycle, m: Lifecycle)
    requires Sound(l) && l.pending.Some? && m.pending.Some? && m.pending.value.id == l.pending.value.id
    requires m.log == l.log && m.everConnected == l.everConnected && m.outage == l.outage && m.issued == l.issued
    ensures Record(m.log, m.everConnected, m.outage, m.pending, m.issued)
  {
    hide TellsTruth, EverUp, InOutage, InContext, TimerRefs, Watchdogs, OnlyAttempt;
  }

  lemma SwitchKeeps(l: Lifecycle, server: string, listed: seq<string>, env: Env)
    requires Inv(l)
    ensures Inv(DoSwitch(l, server, listed, env))
  {
    hide Inv, SupersedeStart, BeginSwitch;
    if server != "" {
      match l.phase
      case Idle =>
      case Stopped =>
      case Starting => SupersedeKeeps(l, server, listed, env);
      case Running => BeginSwitchKeeps(l, server, listed, env);
      case Reconnecting => BeginSwitchKeeps(l, server, listed, env);
      case Waiting => BeginSwitchKeeps(l, server, listed, env);
    }
  }

  lemma BeginSwitchKeeps(l: Lifecycle, server: string, listed: seq<string>, env: Env)
    requires Inv(l) && l.phase in {Running, Reconnecting, Waiting}
    ensures Inv(BeginSwitch(l, server, listed, env))
  {
    hide Record, TimerRefs, Watchdogs, OnlyAttempt, OlderBut, Retarget, CancelTimers, Establish, SwitchFinished, AwaitsOnly;
    RetargetFacts(l, server, listed);
    InvNoneLater(l);
    var r := Retarget(l, server, listed);
    if r.phase != Waiting {
      var u := r.(phase := Reconnecting, cycle := r.cycle + 1);
      CancelTimersSound(u);
      SwitchedKeeps(CancelTimers(u), env);
    }
  }

  lemma SwitchedKeeps(l: Lifecycle, env: Env)
    requires Quiet(l) && Afloat(l) && !l.policy.waiting && l.phase == Reconnecting
    ensures var (q, o) := Establish(l, env.establish(0), SwitchMade(l.cycle), l.cycle, true, env);
      Inv(if o.InFlight? then q else SwitchFinished(q, o.error, l.cycle, env))
  {
    hide Record, TimerRefs, Watchdogs, OnlyAttempt, OlderBut, Establish, AttemptFinished, SwitchFinished, AwaitsOnly;
    EstablishKeeps(l, env.establish(0), SwitchMade(l.cycle), true, env);
    var (q, o) := Establish(l, env.establish(0), SwitchMade(l.cycle), l.cycle, true, env);
    if o.Done? {
      RecoveryStepKeeps(q, 1, o.error, env);
    }
  }

  lemma PathKeeps(l: Lifecycle, u: PathUpdate, env: Env)
    requires Inv(l)
    ensures Inv(DoPath(l, u, env))
  {
    hide Record, TimerRefs, Watchdogs, OnlyAttempt, OlderBut, AwaitsOnly, Handle;
    var n := l.(latest := Some(u));
    SameFlight(l, n);
    SameFlight(l, n.(startBaseline := Some(u.key)));
    if n.phase in {Running, Reconnecting, Waiting} {
      HandleKeeps(n, u, env);
    }
  }

  lemma WakeKeeps(l: Lifecycle, env: Env)
    requires Inv(l)
    ensures Inv(DoWake(l, env))
  {
    hide Record, OlderBut;
    if l.phase == Running {
      var j := CancelledAll(l.jobs, l.wakeTimers);
      CancelledAllSpares(l.jobs, l.jobs, l.wakeTimers);
      SparesWatchdogs(l.jobs, j, l.applies);
      assert l.attemptTimer.None?;
      var more := j + [Job(WakeCheck, 17.0, true), Job(WakeCheck, 32.0, true)];
      assert TimerRefs(more, None, l.recheckTimer, l.livenessTimer, [|j|, |j| + 1]);
      assert Watchdogs(more, l.applies);
    }
  }

  lemma NextKeeps(l: Lifecycle, e: Event, env: Env)
    requires Inv(l) && Enabled(l, e)
    ensures Inv(Next(l, e, env))
  {
    hide Inv, DoStart, DoStop, DoPath, DoSwitch, DoWake, DoFire, OnCallback;
    match e
    case StartTunnel(option) => StartKeeps(l, option, env);
    case StopTunnel => StopKeeps(l);
    case PathChanged(update) => PathKeeps(l, update, env);
    case SwitchServer(server, candidates) => SwitchKeeps(l, server, candidates, env);
    case WokeUp => WakeKeeps(l, env);
    case Fire(job) => FireKeeps(l, job, env);
    case Callback(apply, error) => CallbackKeeps(l, apply, error, env);
  }

  // ---- Main results over runs ----

  datatype Turn = Turn(event: Event, env: Env)

  /** `m` is reached from `l` by the events of `turns`, each able to happen when it does. */
  ghost predicate Runs(l: Lifecycle, turns: seq<Turn>, m: Lifecycle)
    decreases |turns|
  {
    if turns == [] then m == l
    else Enabled(l, turns[0].event) && Runs(Next(l, turns[0].event, turns[0].env), turns[1..], m)
  }

  lemma FreshInv()
    ensures Inv(Fresh)
  {
  }

  lemma {:induction false} RunsKeepInv(l: Lifecycle, turns: seq<Turn>, m: Lifecycle)
    requires Inv(l) && Runs(l, turns, m)
    ensures Inv(m)
    decreases |turns|
  {
    hide Inv, Next;
    if turns != [] {
      NextKeeps(l, turns[0].event, turns[0].env);
      RunsKeepInv(Next(l, turns[0].event, turns[0].env), turns[1..], m);
    }
  }

  /** An unanswered apply whose watchdog is armed and whose answer the current phase waits for. */
  ghost predicate AwaitsApply(l: Lifecycle, i: nat) {
    && i < |l.applies| && l.applies[i].loaded
    && Awaited(l.applies[i].cont, l.phase, l.blockingDone, l.cycle, l.session)
    && l.applies[i].watchdog < |l.jobs| && l.jobs[l.applies[i].watchdog] .live
    && l.jobs[l.applies[i].watchdog].work == Watchdog(i)
  }

  ghost predicate ArmedAttempt(l: Lifecycle, j: nat) {
    j < |l.jobs| && l.jobs[j].live && l.jobs[j].work.RunAttempt?
  }

  lemma AwaitsApplyIsAwaitsOnly(l: Lifecycle, i: nat)
    requires Inv(l)
    ensures AwaitsApply(l, i) <==> AwaitsOnly(l, i)
    ensures AwaitsApply(l, i) ==> forall k :: AwaitsApply(l, k) ==> k == i
    ensures AwaitsApply(l, i) ==> l.phase == Starting || (l.phase == Reconnecting && l.attemptTimer.None?)
  {
    hide Record, TimerRefs, OnlyAttempt;
    if AwaitsApply(l, i) {
      assert !Older(l.applies[i].cont, l.cycle, l.session);
    }
  }

  lemma ArmedAttemptIsHeld(l: Lifecycle)
    requires Inv(l)
    ensures forall j: nat :: ArmedAttempt(l, j) ==> l.attemptTimer == Some(j)
    ensures l.attemptTimer.Some? ==>
      ArmedAttempt(l, l.attemptTimer.value) && l.jobs[l.attemptTimer.value].work.cycle == l.cycle
  {
    hide Record, TimerRefs, Watchdogs, OlderBut;
  }

  /** A recovery always has exactly one thing that will move it on: one live attempt timer, for the
      current cycle, or one awaited settings apply with its watchdog armed; never both, never two. */
  lemma RecoveryIsNeverStuck(turns: seq<Turn>, l: Lifecycle)
    requires Runs(Fresh, turns, l) && l.phase == Reconnecting
    ensures l.attemptTimer.Some? ==>
      && ArmedAttempt(l, l.attemptTimer.value) && l.jobs[l.attemptTimer.value].work.cycle == l.cycle
      && (forall j: nat :: ArmedAttempt(l, j) ==> j == l.attemptTimer.value)
      && (forall i :: !AwaitsApply(l, i))
    ensures l.attemptTimer.None? ==>
      && (forall j: nat :: !ArmedAttempt(l, j))
      && exists i :: AwaitsApply(l, i) && forall k :: AwaitsApply(l, k) ==> k == i
  {
    hide Sound, AwaitsOnly, ArmedAttempt, NoneAwaited;
    FreshInv();
    RunsKeepInv(Fresh, turns, l);
    ArmedAttemptIsHeld(l);
    forall i: nat ensures AwaitsApply(l, i) ==> l.attemptTimer.None? { AwaitsApplyIsAwaitsOnly(l, i); }
    if l.attemptTimer.None? {
      var i :| AwaitsOnly(l, i);
      AwaitsApplyIsAwaitsOnly(l, i);
    }
  }

  lemma AnnounceLogs(l: Lifecycle, failure: Failure)
    ensures l.log <= AnnounceTrouble(l, failure).log && l.log <= AnnounceUp(l).log
    ensures AnnounceTrouble(l, failure).phase == l.phase && AnnounceTrouble(l, failure).latest == l.latest
  {
  }

  lemma AttemptFinishedLogs(l: Lifecycle, attempt: nat, current: nat, error: Option<Error>, env: Env)
    ensures l.log <= AttemptFinished(l, attempt, current, error, env).log
  {
    hide EnterWaiting, AnnounceTrouble, AnnounceUp, AfterFailure, Delay, RetryFailure, PathDown, ScheduleLivenessTick;
    if error.Some? {
      AnnounceLogs(if RetryFailure(l, error.value).Terminal? then l.(sessionReady := false) else l, RetryFailure(l, error.value));
      EnterWaitingLogs(l);
    } else {
      var r := l.(phase := Running, graceUntil := Some(env.now + LIVENESS_GRACE));
      assert ScheduleLivenessTick(r).log == l.log by { LivenessTickLogs(r); }
      AnnounceLogs(ScheduleLivenessTick(r), Transient);
    }
  }

  lemma LivenessTickLogs(l: Lifecycle)
    ensures ScheduleLivenessTick(l).log == l.log
  {
  }

  lemma EnterWaitingLogs(l: Lifecycle)
    ensures l.log <= EnterWaiting(l).log
  {
    hide CancelTimers, AnnounceTrouble;
    var u := l.(policy := l.policy.MarkWaiting(), phase := Waiting, cycle := l.cycle + 1);
    CancelTimersLogs(u);
    AnnounceLogs(Do(CancelTimers(u), CoreStopped), Transient);
  }

  lemma CancelTimersLogs(l: Lifecycle)
    ensures CancelTimers(l).log == l.log && CancelTimers(l).phase == l.phase && CancelTimers(l).pending == l.pending
  {
  }

  lemma EstablishLogs(l: Lifecycle, answers: Answers, cont: Cont, current: nat, switching: bool, env: Env)
    ensures l.log <= Establish(l, answers, cont, current, switching, env).0.log
  {
    hide StartCore, PrepareRoute, EnsureSession;
    var s := EnsureSession(l, answers.session).0;
    assert s.log == l.log by { EnsureSessionLogs(l, answers.session); }
    var got := PrepareRoute(s, answers.prepare, current).0;
    assert s.log <= got.log by { PrepareRouteLogs(s, answers.prepare, current); }
    var cut := if switching then Do(got, CoreStoppedForSwitch) else got;
    assert cut.log <= StartCore(cut, None, current, answers.fd, answers.start).0.log by {
      StartCoreLogs(cut, None, current, answers.fd, answers.start);
    }
  }

  lemma EnsureSessionLogs(l: Lifecycle, answer: Result<seq<string>, Error>)
    ensures EnsureSession(l, answer).0.log == l.log
  {
  }

  lemma PrepareRouteLogs(l: Lifecycle, refused: Option<Error>, current: nat)
    ensures l.log <= PrepareRoute(l, refused, current).0.log
  {
  }

  lemma StartCoreLogs(l: Lifecycle, settingsError: Option<Error>, current: nat, fd: int, start: Option<Error>)
    ensures l.log <= StartCore(l, settingsError, current, fd, start).0.log
  {
  }

  /** The core was asked to prepare or to start after what `before` records. */
  ghost predicate Tried(before: seq<Effect>, after: seq<Effect>) {
    before <= after && exists k :: |before| <= k < |after| && (after[k].Prepared? || after[k].CoreStarted?)
  }

  /** The attempt timer's firing makes the attempt it was armed for, unless the network is down: the core
      is stopped, then asked to prepare or to start, or the session it needs is not to be had. */
  lemma ArmedAttemptActs(turns: seq<Turn>, l: Lifecycle, env: Env)
    requires Runs(Fresh, turns, l) && l.attemptTimer.Some?
    ensures l.attemptTimer.value < |l.jobs|
    ensures var m := DoFire(l, l.attemptTimer.value, env);
      if PathDown(l) then m.phase == Waiting
      else l.log + [CoreStopped] <= m.log && (Tried(l.log + [CoreStopped], m.log) || (!l.sessionReady && env.establish(0).session.Err?))
  {
    hide Record, TimerRefs, Watchdogs, OnlyAttempt, OlderBut, OnRunAttempt, Tried;
    FreshInv();
    RunsKeepInv(Fresh, turns, l);
    var job := l.attemptTimer.value;
    AttemptFires(l, job);
    AttemptActs(l.(jobs := Cancelled(l.jobs, Some(job))), l.jobs[job].work.attempt, env);
  }

  lemma TriedLasts(before: seq<Effect>, log: seq<Effect>, after: seq<Effect>)
    requires log <= after
    ensures Tried(before, log) ==> Tried(before, after)
    ensures before <= log ==> before <= after
  {
  }

  lemma AttemptActs(l: Lifecycle, attempt: nat, env: Env)
    requires l.phase == Reconnecting
    ensures var m := OnRunAttempt(l, attempt, l.cycle, env);
      if PathDown(l) then m.phase == Waiting
      else l.log + [CoreStopped] <= m.log && (Tried(l.log + [CoreStopped], m.log) || (!l.sessionReady && env.establish(0).session.Err?))
  {
    hide EnterWaiting, RestartInPlace, Establish, AttemptFinished, Tried;
    var r := l.(attemptTimer := None);
    if PathDown(r) {
      assert EnterWaiting(r).phase == Waiting by { EntersWaiting(r); }
    } else {
      var inPlace := attempt == 1 && r.preparedExit == Some(r.targets.Current());
      RestartLogs(r, env);
      var (s, restarted) := if inPlace then RestartInPlace(r, env) else (r, false);
      var d := Do(s, CoreStopped);
      assert l.log + [CoreStopped] <= d.log;
      var (q, o) := Establish(d, env.establish(0), AttemptMade(attempt, l.cycle), l.cycle, false, env);
      EstablishLogs(d, env.establish(0), AttemptMade(attempt, l.cycle), l.cycle, false, env);
      EstablishTries(d, env.establish(0), AttemptMade(attempt, l.cycle), l.cycle, false, env);
      TriedEarlier(l.log + [CoreStopped], d.log, q.log);
      AttemptFinishedLogs(s, attempt, l.cycle, None, env);
      TriedLasts(l.log + [CoreStopped], s.log, AttemptFinished(s, attempt, l.cycle, None, env).log);
      if o.Done? {
        AttemptFinishedLogs(q, attempt, l.cycle, o.error, env);
        TriedLasts(l.log + [CoreStopped], q.log, AttemptFinished(q, attempt, l.cycle, o.error, env).log);
      }
    }
  }

  lemma TriedEarlier(before: seq<Effect>, d: seq<Effect>, after: seq<Effect>)
    requires before <= d
    ensures Tried(d, after) ==> Tried(before, after)
  {
  }

  lemma EstablishTries(l: Lifecycle, answers: Answers, cont: Cont, current: nat, switching: bool, env: Env)
    ensures Tried(l.log, Establish(l, answers, cont, current, switching, env).0.log) || (!l.sessionReady && answers.session.Err?)
  {
    hide StartCore, EnsureSession, ApplySettings, Tried;
    assert EnsureSession(l, answers.session).1.Some? ==> !l.sessionReady && answers.session.Err? by { EnsureSessionFails(l, answers.session); }
    var s := EnsureSession(l, answers.session).0;
    assert s.log == l.log by { EnsureSessionLogs(l, answers.session); }
    var got := PrepareRoute(s, answers.prepare, current).0;
    var asked := Prepared(s.targets.Current(), s.phase, s.cycle, current);
    assert got.log == l.log + [asked];
    assert Tried(l.log, got.log) by { assert got.log[|l.log|] == asked; TriedNow(l.log, got.log); }
    var cut := if switching then Do(got, CoreStoppedForSwitch) else got;
    assert got.log <= cut.log;
    var up := StartCore(cut, None, current, answers.fd, answers.start).0;
    StartCoreLogs(cut, None, current, answers.fd, answers.start);
    TriedLasts(l.log, got.log, cut.log);
    TriedLasts(l.log, cut.log, up.log);
    if answers.settings.Ok? {
      assert ApplySettings(cut, answers.settings.value, cont, env).log == cut.log by { ApplySettingsLogs(cut, answers.settings.value, cont, env); }
    }
  }

  lemma ApplySettingsLogs(l: Lifecycle, fingerprint: Fingerprint, cont: Cont, env: Env)
    ensures ApplySettings(l, fingerprint, cont, env).log == l.log
  {
  }

  lemma EnsureSessionFails(l: Lifecycle, answer: Result<seq<string>, Error>)
    ensures EnsureSession(l, answer).1.Some? ==> !l.sessionReady && answer.Err?
  {
  }

  lemma TriedNow(before: seq<Effect>, after: seq<Effect>)
    requires before <= after && |after| == |before| + 1 && (after[|before|].Prepared? || after[|before|].CoreStarted?)
    ensures Tried(before, after)
  {
  }

  lemma EntersWaiting(l: Lifecycle)
    ensures EnterWaiting(l).phase == Waiting
  {
  }

  lemma RestartLogs(l: Lifecycle, env: Env)
    ensures l.log + [CoreStopped] <= RestartInPlace(l, env).0.log
    ensures RestartInPlace(l, env).1 ==> Tried(l.log + [CoreStopped], RestartInPlace(l, env).0.log)
    ensures RestartInPlace(l, env).0.sessionReady == l.sessionReady
  {
    hide Tried;
    var stopped := l.log + [CoreStopped];
    if env.fd >= 0 {
      TriedNow(stopped, stopped + [CoreStarted(l.phase, l.cycle, l.cycle)]);
    }
  }

  /** The awaited apply's answer, or its watchdog, ends the wait: the tunnel is up, waits for a
      network, or has its next attempt armed. */
  lemma AwaitedAnswerMovesOn(turns: seq<Turn>, l: Lifecycle, i: nat, error: Option<Error>, env: Env)
    requires Runs(Fresh, turns, l) && l.phase == Reconnecting && AwaitsApply(l, i)
    ensures var m := OnCallback(l, i, error, env);
      m.phase in {Running, Waiting} || (m.phase == Reconnecting && m.attemptTimer.Some?)
  {
    hide Record, TimerRefs, Watchdogs, OnlyAttempt, StartCore, AttemptFinished, SwitchFinished;
    FreshInv();
    RunsKeepInv(Fresh, turns, l);
    assert AwaitsOnly(l, i);
    AwaitedFires(l, i, error, env);
    var c := Unloaded(l.(jobs := Cancelled(l.jobs, Some(l.applies[i].watchdog))), i, error, env.now);
    var passed := ProceedingPastTimeout(error);
    StartCoreKeeps(c, passed, l.cycle, env.fd, env.start);
    var (s, e) := StartCore(c, passed, l.cycle, env.fd, env.start);
    RecoveryStepMovesOn(s, if l.applies[i].cont.AttemptMade? then l.applies[i].cont.attempt else 1, e, env);
  }

  lemma RecoveryStepMovesOn(l: Lifecycle, attempt: nat, error: Option<Error>, env: Env)
    requires Quiet(l) && Afloat(l) && !l.policy.waiting && l.phase == Reconnecting
    ensures var m := AttemptFinished(l, attempt, l.cycle, error, env);
      m.phase in {Running, Waiting} || (m.phase == Reconnecting && m.attemptTimer.Some?)
    ensures SwitchFinished(l, error, l.cycle, env) == AttemptFinished(l, 1, l.cycle, error, env)
  {
    hide Record, TimerRefs, Watchdogs, OnlyAttempt, OlderBut, AnnounceUp, CancelTimers, EnterWaiting, AnnounceTrouble, AfterFailure, RetryFailure, Delay;
    EntersWaiting(l);
    if error.None? {
      LivenessTickSound(l.(phase := Running, graceUntil := Some(env.now + LIVENESS_GRACE)));
      AnnounceUpSound(ScheduleLivenessTick(l.(phase := Running, graceUntil := Some(env.now + LIVENESS_GRACE))));
    } else {
      AnnounceLogs(if RetryFailure(l, error.value).Terminal? then l.(sessionReady := false) else l, RetryFailure(l, error.value));
    }
  }

  /** Waiting ends with the network: the policy waits too, and the next usable path with a name
      starts a recovery. */
  lemma WaitingAlwaysEnds(turns: seq<Turn>, l: Lifecycle, key: string, env: Env)
    requires Runs(Fresh, turns, l) && l.phase == Waiting && key != ""
    ensures l.policy.waiting
    ensures var m := DoPath(l, PathUpdate(true, key), env);
      m.phase == Reconnecting && m.attemptTimer.Some?
  {
    hide Record, TimerRefs, Watchdogs, OnlyAttempt, OlderBut, BeginRecovery;
    FreshInv();
    RunsKeepInv(Fresh, turns, l);
    InvNoneLater(l);
    var u := PathUpdate(true, key);
    BeginRecoveryKeeps(l.(latest := Some(u), policy := l.policy.PathChanged(key, true, env.now).0), DEBOUNCE);
  }

  /** Exactly once: every start issued has completed once, but for the one still pending. */
  lemma EveryStartCompletesOnce(turns: seq<Turn>, l: Lifecycle, id: nat)
    requires Runs(Fresh, turns, l)
    ensures Completions(l.log, id) ==
      if id < l.issued && !(l.pending.Some? && l.pending.value.id == id) then 1 else 0
    ensures l.pending.Some? ==> l.pending.value.id < l.issued
  {
    hide TellsTruth, EverUp, InOutage, InContext, TimerRefs, Watchdogs, OnlyAttempt, OlderBut;
    FreshInv();
    RunsKeepInv(Fresh, turns, l);
  }

  /** A start is pending exactly in the starting phase, for the current cycle, with one unanswered
      apply that the phase waits for. */
  lemma PendingStartIsOnItsWay(turns: seq<Turn>, l: Lifecycle)
    requires Runs(Fresh, turns, l)
    ensures l.pending.Some? <==> l.phase == Starting
    ensures l.phase == Starting ==>
      && l.pending.value.cycle == l.cycle
      && exists i :: AwaitsApply(l, i) && forall k :: AwaitsApply(l, k) ==> k == i
  {
    hide Sound, AwaitsOnly, NoneAwaited;
    FreshInv();
    RunsKeepInv(Fresh, turns, l);
    if l.phase == Starting {
      var i :| AwaitsOnly(l, i);
      AwaitsApplyIsAwaitsOnly(l, i);
    }
  }

  /** Over a whole run the core is prepared and started only while starting or reconnecting, under
      the cycle in force when the attempt began, and what the alerts are told is true. */
  lemma CoreRunsInContext(turns: seq<Turn>, l: Lifecycle, i: nat)
    requires Runs(Fresh, turns, l) && i < |l.log|
    ensures InContext(l.log[i])
    ensures TellsTruth(l.log)
  {
    hide TimerRefs, Watchdogs, OnlyAttempt, OlderBut, InContext, TellsTruth;
    FreshInv();
    RunsKeepInv(Fresh, turns, l);
  }

  /** What a stopped lifecycle may still do: only stop the core again. */
  ghost predicate StillStopped(l: Lifecycle, m: Lifecycle) {
    && m.phase == Stopped && l.log <= m.log
    && forall i :: |l.log| <= i < |m.log| ==> m.log[i] == CoreStopped
  }

  lemma StoppedIgnoresTimers(l: Lifecycle, job: nat, env: Env)
    requires Inv(l) && l.phase == Stopped && job < |l.jobs| && l.jobs[job].live
    ensures StillStopped(l, DoFire(l, job, env))
  {
    hide Sound, OnlyAttempt, SettingsAnswered;
    match l.jobs[job].work
    case Watchdog(apply) =>
      WatchdogIsATimeout(l, job, env);
      StoppedIgnoresAnswers(l, apply, Some(Start(SettingsTimeout)), env);
    case RunAttempt(_, _) => AttemptFires(l, job);
    case _ =>
  }

  lemma StoppedIgnoresAnswers(l: Lifecycle, apply: nat, error: Option<Error>, env: Env)
    requires Inv(l) && l.phase == Stopped && apply < |l.applies|
    ensures StillStopped(l, OnCallback(l, apply, error, env))
  {
    hide Sound, SettingsAnswered;
    if l.applies[apply].loaded {
      StaleAnswerIsInert(l, apply, error, env);
    }
  }

  lemma StoppedAgain(l: Lifecycle)
    requires Inv(l) && l.phase == Stopped
    ensures StillStopped(l, DoStop(l))
  {
    hide Sound, CancelTimers;
    CancelTimersLogs(l.(cycle := l.cycle + 1));
  }

  lemma StoppedStays(l: Lifecycle, e: Event, env: Env)
    requires Inv(l) && l.phase == Stopped && Enabled(l, e) && !e.StartTunnel?
    ensures StillStopped(l, Next(l, e, env))
  {
    hide Inv, DoFire, OnCallback, DoStop, SupersedeStart, BeginSwitch, Handle;
    match e
    case Fire(job) => StoppedIgnoresTimers(l, job, env);
    case Callback(apply, error) => StoppedIgnoresAnswers(l, apply, error, env);
    case StopTunnel => StoppedAgain(l);
    case _ =>
  }

  /** Between a stop and the next start nothing happens to the core but being stopped again,
      whatever timers and applies are still outstanding. */
  lemma {:induction false} StoppedUntilStarted(l: Lifecycle, turns: seq<Turn>, m: Lifecycle)
    requires Inv(l) && l.phase == Stopped && Runs(l, turns, m)
    requires forall k :: 0 <= k < |turns| ==> !turns[k].event.StartTunnel?
    ensures StillStopped(l, m)
    decreases |turns|
  {
    hide Inv, Next;
    if turns != [] {
      var n := Next(l, turns[0].event, turns[0].env);
      StoppedStays(l, turns[0].event, turns[0].env);
      NextKeeps(l, turns[0].event, turns[0].env);
      StoppedUntilStarted(n, turns[1..], m);
      assert forall i :: |l.log| <= i < |n.log| ==> m.log[i] == n.log[i];
    }
  }

  // ---- What a truthful record means ----

  ghost predicate Up(e: Effect) { e == Told(Connected) || e == Told(Restored) }

  ghost predicate Trouble(e: Effect) { e.Told? && (e.event.TunnelReconnecting? || e.event.Blocked?) }

  ghost predicate Boundary(e: Effect) { e.Began? || e == Told(TunnelStopped) }

  lemma {:induction false} UpLasts(log: seq<Effect>, i: nat, j: nat)
    requires i < j <= |log| && Up(log[i])
    requires forall k :: i < k < j ==> !Boundary(log[k])
    ensures EverUp(log[..j])
    decreases j
  {
    assert log[..j][..j - 1] == log[..j - 1];
    if j - 1 > i {
      UpLasts(log, i, j - 1);
    }
  }

  lemma {:induction false} TroubleLasts(log: seq<Effect>, i: nat, j: nat)
    requires i < j <= |log| && Trouble(log[i])
    requires forall k :: i < k < j ==> !Boundary(log[k]) && !Up(log[k])
    ensures InOutage(log[..j])
    decreases j
  {
    assert log[..j][..j - 1] == log[..j - 1];
    if j - 1 > i {
      TroubleLasts(log, i, j - 1);
    }
  }

  lemma {:induction false} WhyEverUp(log: seq<Effect>, j: nat) returns (i: nat)
    requires j <= |log| && EverUp(log[..j])
    ensures i < j && Up(log[i]) && forall k :: i < k < j ==> !Boundary(log[k])
    decreases j
  {
    assert log[..j][..j - 1] == log[..j - 1];
    if Up(log[j - 1]) {
      i := j - 1;
    } else {
      i := WhyEverUp(log, j - 1);
    }
  }

  lemma {:induction false} WhyInOutage(log: seq<Effect>, j: nat) returns (i: nat)
    requires j <= |log| && InOutage(log[..j])
    ensures i < j && Trouble(log[i]) && forall k :: i < k < j ==> !Boundary(log[k]) && !Up(log[k])
    decreases j
  {
    assert log[..j][..j - 1] == log[..j - 1];
    if Trouble(log[j - 1]) {
      i := j - 1;
    } else {
      i := WhyInOutage(log, j - 1);
    }
  }

  lemma {:induction false} TruthAt(log: seq<Effect>, j: nat)
    requires TellsTruth(log) && j < |log|
    ensures log[j] == Told(Connected) ==> !EverUp(log[..j])
    ensures log[j] == Told(Restored) ==> EverUp(log[..j]) && InOutage(log[..j])
    ensures log[j] == Told(TunnelReconnecting) ==> !InOutage(log[..j])
    decreases |log|
  {
    var before := log[..|log| - 1];
    if j == |log| - 1 {
      assert log[..j] == before;
    } else {
      TruthAt(before, j);
      assert before[..j] == log[..j];
    }
  }

  /** Over any run: a session tells `connected` at most once. */
  lemma ConnectedOncePerSession(turns: seq<Turn>, l: Lifecycle, i: nat, j: nat)
    requires Runs(Fresh, turns, l) && i < j < |l.log|
    requires l.log[i] == Told(Connected) && l.log[j] == Told(Connected)
    ensures exists k :: i < k < j && Boundary(l.log[k])
  {
    hide Runs, InContext, TellsTruth, EverUp, InOutage;
    CoreRunsInContext(turns, l, j);
    TruthAt(l.log, j);
    if forall k :: i < k < j ==> !Boundary(l.log[k]) {
      UpLasts(l.log, i, j);
    }
  }

  /** Over any run: `restored` follows trouble told since the last up event, and an up event told
      before that trouble, all in one session. */
  lemma RestoredEndsAnOutage(turns: seq<Turn>, l: Lifecycle, j: nat)
    requires Runs(Fresh, turns, l) && j < |l.log| && l.log[j] == Told(Restored)
    ensures exists up, down ::
      && 0 <= up < down < j && Up(l.log[up]) && Trouble(l.log[down])
      && (forall k :: up < k < j ==> !Boundary(l.log[k]))
      && (forall k :: down < k < j ==> !Up(l.log[k]))
  {
    hide Runs, InContext, TellsTruth, EverUp, InOutage;
    CoreRunsInContext(turns, l, j);
    TruthAt(l.log, j);
    var last := WhyEverUp(l.log, j);
    var down := WhyInOutage(l.log, j);
    assert last < down;
  }

  /** Over any run: `reconnecting` is told at most once an outage. */
  lemma ReconnectingOncePerOutage(turns: seq<Turn>, l: Lifecycle, i: nat, j: nat)
    requires Runs(Fresh, turns, l) && i < j < |l.log|
    requires l.log[i] == Told(TunnelReconnecting) && l.log[j] == Told(TunnelReconnecting)
    ensures exists k :: i < k < j && (Boundary(l.log[k]) || Up(l.log[k]))
  {
    hide Runs, InContext, TellsTruth, EverUp, InOutage;
    CoreRunsInContext(turns, l, j);
    TruthAt(l.log, j);
    if forall k :: i < k < j ==> !Boundary(l.log[k]) && !Up(l.log[k]) {
      TroubleLasts(l.log, i, j);
    }
  }
}
