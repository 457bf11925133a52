/** What each event of a run comes to, told by what the lifecycle did and by the timers it armed. */
module LifecycleLaws {
  import opened Support
  import opened Reconnect
  import opened Lifecycle
  import opened LifecycleRuns
  import opened LifecycleProgress

  // ---- A settled lifecycle ----

  predicate Upright(phase: Phase) {
    phase in {Running, Reconnecting, Waiting}
  }

  /** The last path reported, if it is usable and has a name, is the one the policy compares with. */
  ghost predicate Seen(l: Lifecycle) {
    Upright(l.phase) && l.latest.Some? && l.latest.value.usable && l.latest.value.key != "" ==>
      l.policy.lastKey == Some(l.latest.value.key)
  }

  ghost predicate Watching(jobs: seq<Job>, timer: Option<nat>) {
    timer.Some? && timer.value < |jobs| && jobs[timer.value].live && jobs[timer.value].work.LivenessTick?
  }

  /** A tunnel that is up is watched and said to be up; one that waits is said to be in trouble. */
  ghost predicate Standing(l: Lifecycle) {
    && (l.phase == Running ==> Watching(l.jobs, l.livenessTimer) && l.everConnected && !l.outage)
    && (l.phase == Waiting ==> l.outage)
  }

  /** A start compares with no path yet and has told nothing. */
  ghost predicate Untold(l: Lifecycle) {
    l.policy.lastKey.None? && !l.everConnected && !l.outage
  }

  /** A start past the blocking routes has its session. */
  ghost predicate Underway(l: Lifecycle) {
    l.phase == Starting ==> Untold(l) && (l.blockingDone ==> l.sessionReady)
  }

  ghost predicate Settled(l: Lifecycle) {
    Seen(l) && Standing(l) && Underway(l)
  }

  ghost predicate SamePath(l: Lifecycle, m: Lifecycle) {
    m.latest == l.latest && m.policy.lastKey == l.policy.lastKey
  }

  lemma CancelTimersFrame(l: Lifecycle)
    ensures var c := CancelTimers(l);
      c == l.(jobs := c.jobs, attemptTimer := None, recheckTimer := None, livenessTimer := None, wakeTimers := [])
  {
    hide CancelledAll, Cancelled;
  }

  lemma CameUpStands(l: Lifecycle, env: Env)
    ensures Standing(CameUp(l, env)) && SamePath(l, CameUp(l, env)) && CameUp(l, env).phase == Running
  {
  }

  lemma EnterWaitingStands(l: Lifecycle)
    requires Standing(l)
    ensures Standing(EnterWaiting(l)) && SamePath(l, EnterWaiting(l)) && EnterWaiting(l).phase == Waiting
  {
    hide CancelTimers;
    CancelTimersFrame(l.(policy := l.policy.MarkWaiting(), phase := Waiting, cycle := l.cycle + 1));
  }

  lemma BeginRecoveryStands(l: Lifecycle, after: real)
    ensures Standing(BeginRecovery(l, after)) && SamePath(l, BeginRecovery(l, after)) && BeginRecovery(l, after).phase == Reconnecting
  {
    hide CancelTimers;
    var t := AnnounceTrouble(l, Transient);
    CancelTimersFrame(t.(phase := Reconnecting, cycle := t.cycle + 1));
  }

  lemma RetryStands(l: Lifecycle, attempt: nat, e: Error)
    requires l.phase == Reconnecting
    ensures Standing(Retry(l, attempt, e)) && SamePath(l, Retry(l, attempt, e)) && Retry(l, attempt, e).phase in {Reconnecting, Waiting}
  {
    hide EnterWaiting, AfterFailure, Delay, RetryFailure, Missing, PathDown;
    EnterWaitingStands(l);
  }

  lemma HandleSettles(l: Lifecycle, u: PathUpdate, env: Env)
    requires Upright(l.phase) && l.latest == Some(u) && Standing(l)
    requires TimerRefs(l.jobs, l.attemptTimer, l.recheckTimer, l.livenessTimer, l.wakeTimers)
    ensures Settled(Handle(l, u, env)) && Upright(Handle(l, u, env).phase)
  {
    hide EnterWaiting, BeginRecovery;
    var (p, d) := l.policy.PathChanged(u.key, u.usable, env.now);
    EnterWaitingStands(l.(policy := p));
    match d
    case ReconnectAfter(delay) => BeginRecoveryStands(l.(policy := p), delay);
    case _ =>
  }

  lemma GoOnSettles(l: Lifecycle, error: Option<Error>, env: Env)
    requires Quiet(l) && Afloat(l) && !l.policy.waiting
    ensures Settled(GoOn(l, error, env))
  {
    hide Record, Watchdogs, OnlyAttempt, OlderBut, Retry, CameUp, Handle, TimerRefs, Standing;
    if error.Some? {
      RetryKeeps(l.(phase := Reconnecting), 1, error.value);
      RetryStands(l.(phase := Reconnecting), 1, error.value);
    } else {
      CameUpKeeps(l, env);
      CameUpStands(l, env);
    }
    var up := if error.Some? then Retry(l.(phase := Reconnecting), 1, error.value) else CameUp(l, env);
    if up.latest.Some? {
      HandleSettles(up, up.latest.value, env);
    }
  }

  lemma FinishStartSettles(l: Lifecycle, error: Option<Error>, env: Env)
    requires AtStart(l) && (error.None? ==> l.blockingDone)
    ensures Settled(FinishStart(l, error, l.cycle, env))
  {
    hide Inv, Record, TimerRefs, Watchdogs, OnlyAttempt, OlderBut, GoOn, Succeeded, CancelTimers;
    var done := l.(pending := None);
    CancelTimersFrame(done.(phase := Idle));
    SucceededKeeps(l);
    if error.None? || ContinuesBlocked(done, error.value) {
      GoOnSettles(Succeeded(done, l.pending.value), error, env);
    }
  }

  lemma SessionIsReady(l: Lifecycle, answer: Result<seq<string>, Error>)
    ensures EnsureSession(l, answer).1.None? <==> EnsureSession(l, answer).0.sessionReady
  {
  }

  lemma InstallPath(l: Lifecycle, answers: Answers, cont: Cont, current: nat, switching: bool, env: Env)
    ensures var (s, o) := Install(l, answers, cont, current, switching, env);
      && SamePath(l, s) && s.phase == l.phase && s.cycle == l.cycle && s.everConnected == l.everConnected && s.outage == l.outage
      && s.sessionReady == l.sessionReady
  {
    hide StartCore;
    var cut := if switching then Do(l, CoreStoppedForSwitch) else l;
    StartCoreFrame(cut, None, current, answers.fd, answers.start);
  }

  lemma EstablishPath(l: Lifecycle, answers: Answers, cont: Cont, current: nat, switching: bool, env: Env)
    ensures var s := Establish(l, answers, cont, current, switching, env).0;
      SamePath(l, s) && s.phase == l.phase && s.cycle == l.cycle && s.everConnected == l.everConnected && s.outage == l.outage
    ensures Establish(l, answers, cont, current, switching, env).1.InFlight? ==> Establish(l, answers, cont, current, switching, env).0.sessionReady
  {
    hide EnsureSession, PrepareRoute, Install;
    EnsureSessionFrame(l, answers.session);
    SessionIsReady(l, answers.session);
    var s := EnsureSession(l, answers.session).0;
    PrepareRouteFrame(s, answers.prepare, current);
    InstallPath(PrepareRoute(s, answers.prepare, current).0, answers, cont, current, switching, env);
  }

  lemma TryCandidateSettles(l: Lifecycle, index: nat, env: Env)
    requires AtStart(l) && l.blockingDone && Untold(l)
    ensures Settled(TryCandidate(l, index, l.cycle, env))
    decreases !l.sessionReady, CandidatesLeft(l, index), 1
  {
    hide AtStart, InFlightFrom, CandidateFinished, Establish, At;
    var t := l.(targets := At(l.targets.ids, index));
    SameStart(l, t);
    AtKeepsIds(l.targets.ids, index);
    EstablishedInFlight(t, index, env);
    EstablishPath(t, env.establish(index), CandidateTried(index, l.cycle), l.cycle, false, env);
    var (s, o) := Establish(t, env.establish(index), CandidateTried(index, l.cycle), l.cycle, false, env);
    if o.Done? {
      CandidateFinishedSettles(s, index, o.error, env);
    }
  }

  lemma CandidateFinishedSettles(l: Lifecycle, index: nat, error: Option<Error>, env: Env)
    requires AtStart(l) && l.blockingDone && Untold(l)
    ensures Settled(CandidateFinished(l, index, error, l.cycle, env))
    decreases !l.sessionReady, CandidatesLeft(l, index), 0
  {
    assert l.pending.Some? && l.pending.value.cycle == l.cycle;
    hide AtStart, TryCandidate, FinishStart;
    if error.Some? && index + 1 < |l.targets.ids| && WorthNextCandidate(error.value) {
      TryCandidateSettles(l, index + 1, env);
    } else {
      FinishStartSettles(l, error, env);
    }
  }

  lemma RunStartSequenceSettles(l: Lifecycle, env: Env)
    requires AtStart(l) && l.blockingDone && Untold(l)
    ensures Settled(RunStartSequence(l, l.cycle, env))
  {
    var (s, e) := EnsureSession(l, env.session);
    EnsureSessionFrame(l, env.session);
    assert AtStart(s) by { EnsureSessionKeeps(l, env.session); hide Record, TimerRefs, Watchdogs, OnlyAttempt, OlderBut; }
    hide AtStart, TryCandidate, FinishStart, EnsureSession;
    if e.Some? {
      FinishStartSettles(s, e, env);
    } else {
      TryCandidateSettles(s, 0, env);
    }
  }

  lemma AttemptFinishedSettles(l: Lifecycle, attempt: nat, current: nat, error: Option<Error>, env: Env)
    requires Settled(l)
    ensures Settled(AttemptFinished(l, attempt, current, error, env))
    ensures Settled(SwitchFinished(l, error, current, env))
  {
    hide Retry, CameUp;
    CameUpStands(l, env);
    if l.phase == Reconnecting && error.Some? {
      RetryStands(l, attempt, error.value);
      RetryStands(l, 1, error.value);
    }
  }

  /** A watchdog or a fired timer of another kind is not the one that watches the tunnel. */
  lemma StillWatching(l: Lifecycle, job: nat)
    requires job < |l.jobs| && !l.jobs[job].work.LivenessTick?
    ensures Watching(l.jobs, l.livenessTimer) ==> Watching(Cancelled(l.jobs, Some(job)), l.livenessTimer)
  {
  }

  lemma UnloadedSettles(l: Lifecycle, id: nat, error: Option<Error>, env: Env)
    requires Settled(l) && Watchdogs(l.jobs, l.applies) && id < |l.applies|
    ensures Settled(Unloaded(l.(jobs := Cancelled(l.jobs, Some(l.applies[id].watchdog))), id, error, env.now))
  {
    StillWatching(l, l.applies[id].watchdog);
    hide Cancelled, Watching;
  }

  lemma CallbackSettles(l: Lifecycle, id: nat, error: Option<Error>, env: Env)
    requires Inv(l) && Settled(l) && id < |l.applies|
    ensures Settled(OnCallback(l, id, error, env))
  {
    hide Settled, Record, TimerRefs, OnlyAttempt, AwaitsOnly, SettingsAnswered;
    CallbackKeeps(l, id, error, env);
    if l.applies[id].loaded {
      if AwaitsOnly(l, id) {
        hide Inv;
        AnsweredSettles(l, id, error, env);
      } else {
        StaleAnswerIsInert(l, id, error, env);
        UnloadedSettles(l, id, error, env);
      }
    }
  }

  lemma AnsweredSettles(l: Lifecycle, id: nat, error: Option<Error>, env: Env)
    requires Inv(l) && Settled(l) && AwaitsOnly(l, id)
    ensures Settled(OnCallback(l, id, error, env))
  {
    if l.phase == Starting {
      StartAnsweredSettles(l, id, error, env);
    } else {
      RecoveryAnsweredSettles(l, id, error, env);
    }
  }

  lemma StartAnsweredSettles(l: Lifecycle, i: nat, error: Option<Error>, env: Env)
    requires Inv(l) && Untold(l) && l.phase == Starting && AwaitsOnly(l, i)
    ensures Settled(OnCallback(l, i, error, env))
  {
    AwaitedFires(l, i, error, env);
    var c := Unloaded(l.(jobs := Cancelled(l.jobs, Some(l.applies[i].watchdog))), i, error, env.now);
    var passed := ProceedingPastTimeout(error);
    assert AtStart(c) by { hide Record, TimerRefs, Watchdogs, OnlyAttempt, OlderBut, AwaitsOnly; }
    match l.applies[i].cont
    case BlockingApplied(session) =>
      if passed.Some? {
        hide Settled, AtStart, Quiet, FinishStart, Inv, OlderBut;
        FinishStartSettles(c, passed, env);
      } else {
        var d := c.(blockingDone := true);
        assert AtStart(d) by { hide Record, TimerRefs, Watchdogs, OnlyAttempt, OlderBut, AwaitsOnly; }
        hide Settled, AtStart, Quiet, RunStartSequence, Inv, OlderBut;
        RunStartSequenceSettles(d, env);
      }
    case CandidateTried(index, cycle) =>
      StartCoreKeeps(c, passed, cycle, env.fd, env.start);
      var (s, e) := StartCore(c, passed, cycle, env.fd, env.start);
      assert AtStart(s) by { hide Record, TimerRefs, Watchdogs, OnlyAttempt, OlderBut, AwaitsOnly; }
      hide Settled, AtStart, Quiet, CandidateFinished, StartCore, Inv, OlderBut;
      CandidateFinishedSettles(s, index, e, env);
  }

  lemma RecoveryAnsweredSettles(l: Lifecycle, i: nat, error: Option<Error>, env: Env)
    requires Inv(l) && Settled(l) && l.phase != Starting && AwaitsOnly(l, i)
    ensures Settled(OnCallback(l, i, error, env))
  {
    var c := Unloaded(l.(jobs := Cancelled(l.jobs, Some(l.applies[i].watchdog))), i, error, env.now);
    assert Settled(c) by { hide Record, TimerRefs, OnlyAttempt; UnloadedSettles(l, i, error, env); }
    var passed := ProceedingPastTimeout(error);
    var (s, e) := StartCore(c, passed, l.cycle, env.fd, env.start);
    StartCoreFrame(c, passed, l.cycle, env.fd, env.start);
    assert Settled(s) by { hide Watching; }
    hide Settled, Sound, Inv, OlderBut, StartCore, AttemptFinished, SwitchFinished;
    AttemptFinishedSettles(s, AttemptOf(l.applies[i].cont), l.cycle, e, env);
  }

  lemma SeenStays(l: Lifecycle, m: Lifecycle)
    requires Seen(l) && SamePath(l, m) && Upright(l.phase) && m.phase == Reconnecting
    ensures Settled(m)
  {
  }

  lemma RunAttemptSettles(l: Lifecycle, attempt: nat, current: nat, env: Env)
    requires Settled(l)
    ensures Settled(OnRunAttempt(l, attempt, current, env))
  {
    if l.phase == Reconnecting && current == l.cycle {
      hide EnterWaiting, RestartInPlace, Establish, AttemptFinished, Settled;
      var r := l.(attemptTimer := None);
      assert Settled(r) by { SeenStays(l, r); }
      if PathDown(r) {
        assert Settled(EnterWaiting(r)) by { EnterWaitingStands(r); }
      } else {
        var inPlace := attempt == 1 && r.preparedExit == Some(r.targets.Current());
        RestartFrame(r, env);
        var (s, restarted) := if inPlace then RestartInPlace(r, env) else (r, false);
        assert Settled(s) by { SeenStays(r, s); }
        if restarted {
          AttemptFinishedSettles(s, attempt, current, None, env);
        } else {
          MadeAttemptSettles(s, attempt, current, env);
        }
      }
    }
  }

  lemma MadeAttemptSettles(l: Lifecycle, attempt: nat, current: nat, env: Env)
    requires Settled(l) && l.phase == Reconnecting
    ensures Settled(MadeAttempt(l, attempt, current, env))
  {
    hide Establish, AttemptFinished;
    EstablishPath(Do(l, CoreStopped), env.establish(0), AttemptMade(attempt, current), current, false, env);
    var (q, o) := Establish(Do(l, CoreStopped), env.establish(0), AttemptMade(attempt, current), current, false, env);
    SeenStays(l, q);
    hide Settled;
    if o.Done? {
      AttemptFinishedSettles(q, attempt, current, o.error, env);
    }
  }

  lemma RecheckSettles(l: Lifecycle, env: Env)
    requires Settled(l) && TimerRefs(l.jobs, l.attemptTimer, l.recheckTimer, l.livenessTimer, l.wakeTimers)
    ensures Settled(OnRecheck(l, env))
  {
    hide Handle;
    var r := l.(recheckTimer := None);
    if Upright(r.phase) && r.latest.Some? {
      HandleSettles(r, r.latest.value, env);
    }
  }

  lemma CheckLivenessSettles(l: Lifecycle, env: Env)
    requires Settled(l)
    ensures Settled(CheckLiveness(l, env))
  {
    hide BeginRecovery, Stale;
    BeginRecoveryStands(l, 0.0);
  }

  lemma LivenessTickSettles(l: Lifecycle, env: Env)
    requires Seen(l) && Underway(l) && (l.phase == Running ==> l.everConnected && !l.outage) && (l.phase == Waiting ==> l.outage)
    ensures Settled(OnLivenessTick(l, env))
  {
    hide BeginRecovery, Stale;
    BeginRecoveryStands(l.(livenessTimer := None), 0.0);
  }

  lemma FireSettles(l: Lifecycle, job: nat, env: Env)
    requires Inv(l) && Settled(l) && job < |l.jobs| && l.jobs[job].live
    ensures Settled(DoFire(l, job, env))
  {
    hide Record, Watchdogs, OnlyAttempt, Flight, OnRunAttempt, OnRecheck, OnLivenessTick, CheckLiveness, OnCallback, Watching;
    var fired := l.(jobs := Cancelled(l.jobs, Some(job)));
    match l.jobs[job].work
    case RunAttempt(attempt, cycle) => StillWatching(l, job); RunAttemptSettles(fired, attempt, cycle, env);
    case Recheck => StillWatching(l, job); CancelledRefs(l, job); RecheckSettles(fired, env);
    case LivenessTick => LivenessTickSettles(fired, env);
    case WakeCheck => StillWatching(l, job); CheckLivenessSettles(fired, env);
    case Watchdog(apply) => WatchdogIsATimeout(l, job, env); CallbackSettles(l, apply, Some(Start(SettingsTimeout)), env);
  }

  lemma CancelledRefs(l: Lifecycle, job: nat)
    requires TimerRefs(l.jobs, l.attemptTimer, l.recheckTimer, l.livenessTimer, l.wakeTimers)
    ensures TimerRefs(Cancelled(l.jobs, Some(job)), l.attemptTimer, l.recheckTimer, l.livenessTimer, l.wakeTimers)
  {
  }

  lemma StartSettles(l: Lifecycle, option: Option<string>, env: Env)
    requires Inv(l)
    ensures Settled(DoStart(l, option, env))
  {
    hide Inv, Quiet, FinishStart, AbandonPendingStart, CancelTimers;
    StartedAtStart(l, option);
    var r := ResetSession(l);
    var s := Do(r.(phase := Starting, optionServer := option, issued := r.issued + 1), Began(r.issued))
      .(pending := Some(Pending(r.cycle, r.issued)));
    if !env.hostAlive {
      FinishStartSettles(s, Some(Start(StartStopped)), env);
    }
  }

  lemma SupersedeSettles(l: Lifecycle, server: string, listed: seq<string>, env: Env)
    requires Inv(l) && Settled(l) && l.phase == Starting
    ensures Settled(SupersedeStart(l, server, listed, env))
  {
    hide TimerRefs, Watchdogs, OnlyAttempt, Retarget, RunStartSequence;
    assert Retarget(l, server, listed) == l.(targets := Retarget(l, server, listed).targets) by { RetargetFacts(l, server, listed); }
    var r := Retarget(l, server, listed);
    var s := r.(cycle := r.cycle + 1, pending := Some(Pending(r.cycle + 1, l.pending.value.id)));
    var i :| AwaitsOnly(l, i);
    RepointedRecord(l, s);
    if s.blockingDone {
      RunStartSequenceSettles(s, env);
    }
  }

  lemma BeginSwitchSettles(l: Lifecycle, server: string, listed: seq<string>, env: Env)
    requires Settled(l) && Upright(l.phase)
    ensures Settled(BeginSwitch(l, server, listed, env))
  {
    hide Retarget, CancelTimers, Establish, SwitchFinished;
    RetargetFacts(l, server, listed);
    var r := Retarget(l, server, listed);
    if r.phase != Waiting {
      CancelTimersFrame(r.(phase := Reconnecting, cycle := r.cycle + 1));
      var s := CancelTimers(r.(phase := Reconnecting, cycle := r.cycle + 1));
      EstablishPath(s, env.establish(0), SwitchMade(s.cycle), s.cycle, true, env);
      var (q, o) := Establish(s, env.establish(0), SwitchMade(s.cycle), s.cycle, true, env);
      SeenStays(l, q);
      hide Settled;
      if o.Done? {
        AttemptFinishedSettles(q, 1, s.cycle, o.error, env);
      }
    }
  }

  lemma {:induction false} CancelledAllWatching(jobs: seq<Job>, ts: seq<nat>, timer: Option<nat>)
    requires Watching(jobs, timer) && forall t :: t in ts ==> t < |jobs| && jobs[t].work.WakeCheck?
    ensures Watching(CancelledAll(jobs, ts), timer)
    decreases |ts|
  {
    if ts != [] {
      assert forall t :: t in ts[1..] ==> t in ts;
      CancelledAllWatching(Cancelled(jobs, Some(ts[0])), ts[1..], timer);
    }
  }

  lemma WakeSettles(l: Lifecycle, env: Env)
    requires Inv(l) && Settled(l)
    ensures Settled(DoWake(l, env))
  {
    hide Record, Watchdogs, OnlyAttempt, OlderBut;
    if l.phase == Running {
      CancelledAllWatching(l.jobs, l.wakeTimers, l.livenessTimer);
    }
  }

  lemma PathSettles(l: Lifecycle, u: PathUpdate, env: Env)
    requires Inv(l) && Settled(l)
    ensures Settled(DoPath(l, u, env))
  {
    hide Record, Watchdogs, OnlyAttempt, OlderBut, Handle, Watching;
    if Upright(l.phase) {
      HandleSettles(l.(latest := Some(u)), u, env);
    }
  }

  lemma NextSettles(l: Lifecycle, e: Event, env: Env)
    requires Inv(l) && Settled(l) && Enabled(l, e)
    ensures Settled(Next(l, e, env))
  {
    hide DoStart, DoPath, SupersedeStart, BeginSwitch, DoWake, DoFire, OnCallback, Sound, Flight;
    match e
    case StartTunnel(option) => StartSettles(l, option, env);
    case StopTunnel => StopKeeps(l);
    case PathChanged(update) => PathSettles(l, update, env);
    case SwitchServer(server, candidates) =>
      if l.phase == Starting {
        SupersedeSettles(l, server, candidates, env);
      } else if Upright(l.phase) {
        BeginSwitchSettles(l, server, candidates, env);
      }
    case WokeUp => WakeSettles(l, env);
    case Fire(job) => FireSettles(l, job, env);
    case Callback(apply, error) => CallbackSettles(l, apply, error, env);
  }

  lemma {:induction false} RunsSettle(l: Lifecycle, turns: seq<Turn>, m: Lifecycle)
    requires Inv(l) && Settled(l) && Runs(l, turns, m)
    ensures Inv(m) && Settled(m)
    decreases |turns|
  {
    hide Inv, Settled, Next;
    if turns != [] {
      NextKeeps(l, turns[0].event, turns[0].env);
      NextSettles(l, turns[0].event, turns[0].env);
      RunsSettle(Next(l, turns[0].event, turns[0].env), turns[1..], m);
    }
  }

  lemma RunsAreSettled(turns: seq<Turn>, l: Lifecycle)
    requires Runs(Fresh, turns, l)
    ensures Inv(l) && Settled(l)
  {
    hide Runs;
    FreshInv();
    RunsSettle(Fresh, turns, l);
  }

  // ---- What an outcome looks like ----

  /** Coming up is told once a session, coming back once an outage. */
  function SaidUp(l: Lifecycle): seq<Effect> {
    if !l.everConnected then [Told(Connected)] else if l.outage then [Told(Restored)] else []
  }

  function SaidDown(l: Lifecycle): seq<Effect> {
    if l.outage then [] else [Told(TunnelReconnecting)]
  }

  ghost predicate Armed(l: Lifecycle, attempt: nat, after: real) {
    l.attemptTimer.Some? && l.attemptTimer.value < |l.jobs| && l.jobs[l.attemptTimer.value] == Job(RunAttempt(attempt, l.cycle), after, true)
  }

  /** `m` is `l` come up: said so after `log`, left alone for 30 seconds, looked at again in 15. */
  ghost predicate CameUpAs(l: Lifecycle, log: seq<Effect>, m: Lifecycle, now: real) {
    && m.phase == Running && m.cycle == l.cycle && m.log == log + SaidUp(l) && m.graceUntil == Some(now + 30.0)
    && m.livenessTimer.Some? && m.livenessTimer.value < |m.jobs| && m.jobs[m.livenessTimer.value] == Job(LivenessTick, 15.0, true)
  }

  /** `m` is `l` waiting for a network. */
  ghost predicate WaitsAs(l: Lifecycle, log: seq<Effect>, m: Lifecycle) {
    && m.phase == Waiting && m.cycle == l.cycle + 1 && m.policy.waiting && m.log == log + [CoreStopped] + SaidDown(l)
    && m.attemptTimer.None? && m.recheckTimer.None? && m.livenessTimer.None? && m.wakeTimers == []
  }

  /** `m` is `l` with a new recovery begun. */
  ghost predicate RecoveryBegun(l: Lifecycle, m: Lifecycle, after: real) {
    && m.phase == Reconnecting && m.cycle == l.cycle + 1 && Armed(m, 1, after) && m.log == l.log + SaidDown(l)
    && m.applies == l.applies && m.recheckTimer.None? && m.livenessTimer.None? && m.wakeTimers == []
  }

  predicate Says(e: Error, code: StartError) {
    e == Start(code) || e == Core(code)
  }

  /** Only the user can do something about it. */
  predicate Refuses(e: Error) {
    Says(e, SignedOut) || Says(e, SubscriptionExpired) || Says(e, NoSubscription) || Says(e, NoServer)
  }

  /** The server is unknown, and there is another. */
  predicate Elsewhere(l: Lifecycle, e: Error) {
    Says(e, NoServer) && |l.targets.ids| > 1
  }

  /** `m` is `l` after its attempt `a` failed with `e` while the network is up: how long until the next
      attempt, on which server, and what was said. */
  ghost predicate RetriesAs(l: Lifecycle, log: seq<Effect>, m: Lifecycle, a: nat, e: Error) {
    && m.phase == Reconnecting && m.cycle == l.cycle
    && m.log == log + (if Refuses(e) && !Elsewhere(l, e) then [Told(Blocked(e.code))] else if Says(e, DeviceLocked) then [] else SaidDown(l))
    && Armed(m, a + 1,
         if Refuses(e) && !Elsewhere(l, e) then 300.0 else if Says(e, DeviceLocked) then 5.0
         else if a <= 1 then 3.0 else if a == 2 then 6.0 else if a == 3 then 9.0 else 30.0)
    && m.targets.ids == l.targets.ids
    && m.targets.index == (
         if l.targets.ids == [] || (!Elsewhere(l, e) && (a == 0 || a % 3 != 0)) then l.targets.index
         else if l.targets.index + 1 < |l.targets.ids| then l.targets.index + 1 else 0)
    && (m.sessionReady <==> l.sessionReady && (Refuses(e) ==> Elsewhere(l, e)))
  }

  ghost predicate FailedAs(l: Lifecycle, log: seq<Effect>, m: Lifecycle, a: nat, e: Error) {
    if l.latest.Some? && !l.latest.value.usable then WaitsAs(l, log, m) else RetriesAs(l, log, m, a, e)
  }

  // ---- The steps a run is made of ----

  lemma CameUpIs(l: Lifecycle, env: Env)
    ensures CameUpAs(l, l.log, CameUp(l, env), env.now) && CameUp(l, env).latest == l.latest
  {
  }

  lemma EnterWaitingIs(l: Lifecycle)
    ensures l.phase != Waiting ==> WaitsAs(l, l.log, EnterWaiting(l))
    ensures l.phase == Waiting ==> EnterWaiting(l) == l.(policy := l.policy.(waiting := true))
  {
    hide CancelTimers;
    CancelTimersFrame(l.(policy := l.policy.MarkWaiting(), phase := Waiting, cycle := l.cycle + 1));
  }

  lemma BeginRecoveryIs(l: Lifecycle, after: real)
    ensures RecoveryBegun(l, BeginRecovery(l, after), after)
  {
    hide CancelTimers;
    var t := AnnounceTrouble(l, Transient);
    CancelTimersFrame(t.(phase := Reconnecting, cycle := t.cycle + 1));
  }

  lemma ClassifiedAs(l: Lifecycle, e: Error)
    ensures Missing(l, e) <==> Elsewhere(l, e)
    ensures Refuses(e) ==> Classify(e) == Terminal(e.code)
    ensures Says(e, DeviceLocked) ==> Classify(e) == Locked
    ensures !Refuses(e) && !Says(e, DeviceLocked) ==> Classify(e) == Transient
  {
  }

  lemma AdvancedIs(c: Candidates, attempt: nat, missing: bool)
    ensures var m := AfterFailure(c, attempt, missing);
      m.ids == c.ids && m.index == (if c.ids == [] || (!missing && (attempt == 0 || attempt % 3 != 0)) then c.index
        else if c.index + 1 < |c.ids| then c.index + 1 else 0)
  {
    if c.ids != [] {
      NextIndex(c.index, |c.ids|);
    }
  }

  lemma RetryIs(l: Lifecycle, attempt: nat, e: Error)
    requires l.phase == Reconnecting
    ensures FailedAs(l, l.log, Retry(l, attempt, e), attempt, e)
    ensures Retry(l, attempt, e).phase == Waiting || Retry(l, attempt, e).policy == l.policy
  {
    hide EnterWaiting, AfterFailure, Classify, Missing, Refuses, Elsewhere, Says;
    EnterWaitingIs(l);
    ClassifiedAs(l, e);
    LockedIsNotRefused(e);
    AdvancedIs(l.targets, attempt, Missing(l, e));
  }

  lemma LockedIsNotRefused(e: Error)
    ensures !(Refuses(e) && Says(e, DeviceLocked))
    ensures forall l: Lifecycle :: Elsewhere(l, e) ==> Refuses(e)
  {
  }

  // ---- Paths ----

  /** A recheck of the path is armed. */
  ghost predicate RecheckArmed(l: Lifecycle, after: real) {
    l.recheckTimer.Some? && l.recheckTimer.value < |l.jobs| && l.jobs[l.recheckTimer.value] == Job(Recheck, after, true)
  }

  /** The settings were applied less than five seconds ago. */
  predicate JustApplied(l: Lifecycle, now: real) {
    l.policy.appliedAt.Some? && now < l.policy.appliedAt.value + 5.0
  }

  ghost predicate KeepsOn(l: Lifecycle, m: Lifecycle) {
    && m.phase == l.phase && m.cycle == l.cycle && m.log == l.log && m.applies == l.applies
    && m.attemptTimer == l.attemptTimer && m.livenessTimer == l.livenessTimer && m.wakeTimers == l.wakeTimers
  }

  lemma HandleIs(l: Lifecycle, u: PathUpdate, env: Env)
    requires Upright(l.phase) && (l.policy.waiting <==> l.phase == Waiting)
    ensures var m := Handle(l, u, env);
      var known := l.policy.lastKey;
      if u.usable && u.key != "" && (l.phase == Waiting || (known.Some? && known.value != u.key)) then RecoveryBegun(l, m, 1.5)
      else if u.usable then m == l.(policy := l.policy.(lastKey := if u.key == "" then known else Some(u.key)))
      else if JustApplied(l, env.now) then KeepsOn(l, m) && m.policy == l.policy && RecheckArmed(m, l.policy.appliedAt.value + 5.0 - env.now)
      else if l.phase == Waiting then m == l
      else WaitsAs(l, l.log, m)
  {
    hide EnterWaiting, BeginRecovery;
    var (p, d) := l.policy.PathChanged(u.key, u.usable, env.now);
    EnterWaitingIs(l.(policy := p));
    BeginRecoveryIs(l.(policy := p), 1.5);
  }

  /** What a path update does to a session: another network than the last one seen begins a recovery after
      a debounce of 1.5 seconds, and so does any named network while waiting; the same network again, the
      first one, or one without a name changes nothing but what is remembered; and a network that went
      away is looked at again once five seconds have passed since the settings were applied, or, when
      they have, leaves the session waiting. */
  lemma PathChangeComesTo(turns: seq<Turn>, l: Lifecycle, u: PathUpdate, env: Env)
    requires Runs(Fresh, turns, l) && l.phase in {Running, Reconnecting, Waiting}
    ensures var m := DoPath(l, u, env);
      var known := l.policy.lastKey;
      if u.usable && u.key != "" && (l.phase == Waiting || (known.Some? && known.value != u.key)) then RecoveryBegun(l, m, 1.5)
      else if u.usable then m == l.(latest := Some(u), policy := l.policy.(lastKey := if u.key == "" then known else Some(u.key)))
      else if JustApplied(l, env.now) then KeepsOn(l, m) && m.policy == l.policy && RecheckArmed(m, l.policy.appliedAt.value + 5.0 - env.now)
      else if l.phase == Waiting then m == l.(latest := Some(u))
      else WaitsAs(l, l.log, m)
  {
    RunsAreSettled(turns, l);
    hide Handle, Sound, Flight, Settled, Runs;
    HandleIs(l.(latest := Some(u)), u, env);
  }

  /** The network compared with is the one last reported: told twice of the same network, a session that
      is not waiting stays as it is; told of another one, it begins a recovery. */
  lemma OnlyAnotherNetworkRecovers(turns: seq<Turn>, l: Lifecycle, from: string, to: string, env: Env)
    requires Runs(Fresh, turns, l) && l.phase in {Running, Reconnecting}
    requires l.latest == Some(PathUpdate(true, from)) && from != "" && to != ""
    ensures var m := DoPath(l, PathUpdate(true, to), env);
      if from == to then m == l else RecoveryBegun(l, m, 1.5)
  {
    RunsAreSettled(turns, l);
    PathChangeComesTo(turns, l, PathUpdate(true, to), env);
    hide Runs, DoPath, Standing, Underway, Inv, RecoveryBegun, WaitsAs;
  }

  /** A recheck that fires handles the last path reported as if it were reported now. */
  lemma RecheckIsAPathChange(turns: seq<Turn>, l: Lifecycle, job: nat, env: Env)
    requires Runs(Fresh, turns, l) && l.phase in {Running, Reconnecting, Waiting} && l.latest.Some?
    requires job < |l.jobs| && l.jobs[job].live && l.jobs[job].work.Recheck?
    ensures var fired := l.(jobs := Cancelled(l.jobs, Some(job)), recheckTimer := None);
      DoFire(l, job, env) == DoPath(fired, l.latest.value, env)
  {
    hide Handle, Cancelled, Runs;
  }

  // ---- Attempts ----

  /** What an answered apply comes to: a timeout is no failure, the interface must be open, and the core
      has the last word. */
  function Verdict(error: Option<Error>, fd: int, start: Option<Error>): Option<Error> {
    if error.Some? && error != Some(Start(SettingsTimeout)) then error
    else if fd < 0 then Some(Start(NoTunnelInterface))
    else start
  }

  /** The core is started exactly when there is an interface to start it on. */
  function Ran(l: Lifecycle, log: seq<Effect>, error: Option<Error>, fd: int): seq<Effect> {
    if (error.Some? && error != Some(Start(SettingsTimeout))) || fd < 0 then log else log + [CoreStarted(l.phase, l.cycle, l.cycle)]
  }

  lemma StartCoreIs(l: Lifecycle, error: Option<Error>, fd: int, start: Option<Error>)
    requires l.phase in {Starting, Reconnecting}
    ensures StartCore(l, ProceedingPastTimeout(error), l.cycle, fd, start)
      == (l.(log := Ran(l, l.log, error, fd)), Verdict(error, fd, start))
  {
  }

  lemma AttemptFinishedIs(l: Lifecycle, a: nat, error: Option<Error>, env: Env)
    requires l.phase == Reconnecting
    ensures var m := AttemptFinished(l, a, l.cycle, error, env);
      if error.None? then CameUpAs(l, l.log, m, env.now) else FailedAs(l, l.log, m, a, error.value)
    ensures SwitchFinished(l, error, l.cycle, env) == AttemptFinished(l, 1, l.cycle, error, env)
  {
    hide Retry, CameUp, FailedAs, CameUpAs;
    CameUpIs(l, env);
    if error.Some? {
      RetryIs(l, a, error.value);
    }
  }

  /** Outcomes read only these of the state they leave. */
  lemma SameOutcomes(l: Lifecycle, s: Lifecycle, log: seq<Effect>, m: Lifecycle, a: nat, e: Error, now: real)
    requires s.everConnected == l.everConnected && s.outage == l.outage && s.cycle == l.cycle && s.latest == l.latest
    requires s.targets == l.targets && s.sessionReady == l.sessionReady
    ensures CameUpAs(l, log, m, now) <==> CameUpAs(s, log, m, now)
    ensures FailedAs(l, log, m, a, e) <==> FailedAs(s, log, m, a, e)
  {
    hide Armed, Refuses, Says;
  }

  /** The recovery once its answer is in and the core was started, or not. */
  function Answered(l: Lifecycle, i: nat, error: Option<Error>, env: Env): Lifecycle
    requires i < |l.applies|
  {
    Unloaded(l.(jobs := Cancelled(l.jobs, Some(l.applies[i].watchdog))), i, error, env.now).(log := Ran(l, l.log, error, env.fd))
  }

  lemma AnsweredFrame(l: Lifecycle, i: nat, error: Option<Error>, env: Env)
    requires i < |l.applies|
    ensures var s := Answered(l, i, error, env);
      && s == l.(jobs := s.jobs, applies := s.applies, policy := s.policy, appliedFingerprint := s.appliedFingerprint, log := s.log)
      && s.log == Ran(l, l.log, error, env.fd) && s.policy == l.policy.(appliedAt := Some(env.now))
      && s.applies == l.applies[i := l.applies[i].(loaded := false)]
      && s.appliedFingerprint == if error.None? then Some(l.applies[i].fingerprint) else l.appliedFingerprint
  {
    hide Cancelled;
  }

  lemma RecoveryAnswered(l: Lifecycle, i: nat, error: Option<Error>, env: Env)
    requires i < |l.applies| && l.applies[i].loaded && l.phase == Reconnecting
    requires (l.applies[i].cont.AttemptMade? || l.applies[i].cont.SwitchMade?) && l.applies[i].cont.cycle == l.cycle
    ensures OnCallback(l, i, error, env)
      == AttemptFinished(Answered(l, i, error, env), AttemptOf(l.applies[i].cont), l.cycle, Verdict(error, env.fd, env.start), env)
  {
    hide StartCore, AttemptFinished, SwitchFinished, Verdict, Ran, Cancelled;
    var c := Unloaded(l.(jobs := Cancelled(l.jobs, Some(l.applies[i].watchdog))), i, error, env.now);
    StartCoreIs(c, error, env.fd, env.start);
    assert Ran(c, c.log, error, env.fd) == Ran(l, l.log, error, env.fd) by { SameRan(l, c, l.log, error, env.fd); }
    SwitchIsFirst(Answered(l, i, error, env), Verdict(error, env.fd, env.start), env);
  }

  lemma SameRan(l: Lifecycle, c: Lifecycle, log: seq<Effect>, error: Option<Error>, fd: int)
    requires c.phase == l.phase && c.cycle == l.cycle
    ensures Ran(c, log, error, fd) == Ran(l, log, error, fd)
  {
  }

  ghost predicate SameApplies(l: Lifecycle, m: Lifecycle) {
    && m.applies == l.applies && m.preparedExit == l.preparedExit
    && m.appliedFingerprint == l.appliedFingerprint && m.policy.appliedAt == l.policy.appliedAt
  }

  /** An attempt's end touches no apply and keeps what was prepared. */
  lemma FinishedFrame(l: Lifecycle, a: nat, error: Option<Error>, env: Env)
    ensures SameApplies(l, AttemptFinished(l, a, l.cycle, error, env))
  {
    hide EnterWaiting, TryAgain, CameUp, RetryFailure, Missing, PathDown;
    EnterWaitingFrame(l);
    CameUpFrame(l, env);
    if error.Some? {
      TryAgainFrame(l, a, RetryFailure(l, error.value), Missing(l, error.value));
    }
  }

  lemma CameUpFrame(l: Lifecycle, env: Env)
    ensures SameApplies(l, CameUp(l, env))
  {
    hide Cancelled;
  }

  lemma TryAgainFrame(l: Lifecycle, a: nat, failure: Failure, missing: bool)
    ensures SameApplies(l, TryAgain(l, a, failure, missing))
  {
    hide Delay, AfterFailure;
  }

  lemma EnterWaitingFrame(l: Lifecycle)
    ensures SameApplies(l, EnterWaiting(l))
  {
    hide CancelTimers;
    CancelTimersFrame(l.(policy := l.policy.MarkWaiting(), phase := Waiting, cycle := l.cycle + 1));
  }

  /** The answer a recovery waits for decides it: the tunnel is up exactly when the settings are applied or
      only timed out, the interface is open and the core starts; else the attempt failed, with the first
      of these that went wrong. */
  lemma RecoveryAnswerComesTo(turns: seq<Turn>, l: Lifecycle, i: nat, error: Option<Error>, env: Env)
    requires Runs(Fresh, turns, l) && l.phase == Reconnecting && AwaitsApply(l, i)
    ensures var m := OnCallback(l, i, error, env);
      var verdict := Verdict(error, env.fd, env.start);
      var log := Ran(l, l.log, error, env.fd);
      if verdict.None? then CameUpAs(l, log, m, env.now) else FailedAs(l, log, m, AttemptOf(l.applies[i].cont), verdict.value)
    ensures var m := OnCallback(l, i, error, env);
      && m.applies == l.applies[i := l.applies[i].(loaded := false)] && m.policy.appliedAt == Some(env.now)
      && m.appliedFingerprint == if error.None? then Some(l.applies[i].fingerprint) else l.appliedFingerprint
  {
    RunsAreSettled(turns, l);
    AwaitsApplyIsAwaitsOnly(l, i);
    hide Inv, Settled, Runs, OlderBut, OnCallback, AttemptFinished, CameUpAs, FailedAs, Verdict, Ran, Answered, SwitchFinished;
    var s := Answered(l, i, error, env);
    var verdict := Verdict(error, env.fd, env.start);
    RecoveryAnswered(l, i, error, env);
    AnsweredFrame(l, i, error, env);
    AttemptFinishedIs(s, AttemptOf(l.applies[i].cont), verdict, env);
    FinishedFrame(s, AttemptOf(l.applies[i].cont), verdict, env);
    SameOutcomes(l, s, s.log, OnCallback(l, i, error, env), AttemptOf(l.applies[i].cont), if verdict.Some? then verdict.value else Foreign, env.now);
  }

  /** With its session at hand: a list that was empty is the one the session answered. */
  function WithSession(l: Lifecycle, answers: Answers): Lifecycle {
    if l.sessionReady || answers.session.Err? then l
    else l.(sessionReady := true, targets := if l.targets.ids == [] then CandidateList(answers.session.value, 0) else l.targets)
  }

  /** One apply more is handed to the system, with a watchdog of five seconds. */
  ghost predicate AppliesAs(l: Lifecycle, log: seq<Effect>, m: Lifecycle, cont: Cont, fingerprint: Fingerprint) {
    && m.phase == l.phase && m.cycle == l.cycle && m.log == log && m.attemptTimer == l.attemptTimer && m.appliedFingerprint.None?
    && |m.applies| == |l.applies| + 1 && m.applies[..|l.applies|] == l.applies
    && m.applies[|l.applies|] == Apply(cont, fingerprint, |l.jobs|, true)
    && m.jobs == l.jobs + [Job(Watchdog(|l.applies|), 5.0, true)]
  }

  /** `m` is a recovery's attempt `a` made from `l`, as the core and the host answered. */
  ghost predicate MadeAs(l: Lifecycle, m: Lifecycle, a: nat, cont: Cont, switching: bool, env: Env) {
    var answers := env.establish(0);
    if !l.sessionReady && answers.session.Err? then FailedAs(l, l.log, m, a, answers.session.error)
    else
      var k := WithSession(l, answers);
      var asked := l.log + [Prepared(k.targets.Current(), Reconnecting, l.cycle, l.cycle)];
      if answers.prepare.Some? then FailedAs(k, asked, m, a, answers.prepare.value)
      else m.preparedExit == Some(k.targets.Current()) && InstalledAs(k, asked, m, a, cont, switching, env)
  }

  /** A switch stops the core once the new route is prepared. */
  function Cut(log: seq<Effect>, switching: bool): seq<Effect> {
    if switching then log + [CoreStoppedForSwitch] else log
  }

  /** The prepared route's settings are applied unless they are those in force; then the core starts at once. */
  ghost predicate InstalledAs(l: Lifecycle, asked: seq<Effect>, m: Lifecycle, a: nat, cont: Cont, switching: bool, env: Env) {
    var answers := env.establish(0);
    if answers.settings.Err? then FailedAs(l, asked, m, a, answers.settings.error)
    else
      var log := Cut(asked, switching);
      if l.appliedFingerprint == Some(answers.settings.value) then
        var verdict := Verdict(None, answers.fd, answers.start);
        && m.applies == l.applies
        && (if verdict.None? then CameUpAs(l, Ran(l, log, None, answers.fd), m, env.now)
            else FailedAs(l, Ran(l, log, None, answers.fd), m, a, verdict.value))
      else if env.hostAlive then AppliesAs(l, log, m, cont, answers.settings.value)
      else FailedAs(l, log, m, a, Start(StartStopped))
  }

  /** What is left of an attempt once its route is established, or not. */
  function Concluded(s: Lifecycle, o: Outcome, a: nat, current: nat, env: Env): Lifecycle {
    if o.InFlight? then s else AttemptFinished(s, a, current, o.error, env)
  }

  lemma InstallSteps(l: Lifecycle, cont: Cont, switching: bool, env: Env)
    requires l.phase == Reconnecting
    ensures var answers := env.establish(0);
      Install(l, answers, cont, l.cycle, switching, env) == (
        if answers.settings.Err? then (l, Done(Some(answers.settings.error)))
        else if l.appliedFingerprint == Some(answers.settings.value)
        then (l.(log := Ran(l, Cut(l.log, switching), None, answers.fd)), Done(Verdict(None, answers.fd, answers.start)))
        else if env.hostAlive
        then (ApplySettings(l.(log := Cut(l.log, switching)), answers.settings.value, cont, env), InFlight)
        else (l.(log := Cut(l.log, switching)), Done(Some(Start(StartStopped)))))
  {
    hide StartCore, Verdict, Ran, ApplySettings;
    var answers := env.establish(0);
    var cut := if switching then Do(l, CoreStoppedForSwitch) else l;
    assert cut == l.(log := Cut(l.log, switching));
    StartCoreIs(cut, None, answers.fd, answers.start);
    SameRan(l, cut, cut.log, None, answers.fd);
  }

  lemma InstallIs(l: Lifecycle, a: nat, cont: Cont, switching: bool, env: Env)
    requires l.phase == Reconnecting
    ensures var (s, o) := Install(l, env.establish(0), cont, l.cycle, switching, env);
      var m := Concluded(s, o, a, l.cycle, env);
      InstalledAs(l, l.log, m, a, cont, switching, env) && m.preparedExit == l.preparedExit
  {
    hide Install, AttemptFinished, FailedAs, CameUpAs, Verdict, Ran, Cut, ApplySettings, AppliesAs;
    InstallSteps(l, cont, switching, env);
    var answers := env.establish(0);
    var cut := l.(log := Cut(l.log, switching));
    if answers.settings.Err? {
      InstallEnds(l, l, a, Some(answers.settings.error), l.log, env);
    } else if l.appliedFingerprint == Some(answers.settings.value) {
      InstallEnds(l, l, a, Verdict(None, answers.fd, answers.start), Ran(l, cut.log, None, answers.fd), env);
    } else if env.hostAlive {
      OneMoreApply(l, cut.log, answers.settings.value, cont, env);
    } else {
      InstallEnds(l, l, a, Some(Start(StartStopped)), cut.log, env);
    }
  }

  lemma OneMoreApply(l: Lifecycle, log: seq<Effect>, fingerprint: Fingerprint, cont: Cont, env: Env)
    ensures var m := ApplySettings(l.(log := log), fingerprint, cont, env);
      AppliesAs(l, log, m, cont, fingerprint) && m.preparedExit == l.preparedExit
  {
  }

  lemma InstallEnds(l: Lifecycle, cut: Lifecycle, a: nat, error: Option<Error>, log: seq<Effect>, env: Env)
    requires l.phase == Reconnecting && cut == l.(log := cut.log)
    ensures var m := AttemptFinished(cut.(log := log), a, l.cycle, error, env);
      && m.applies == l.applies && m.preparedExit == l.preparedExit
      && (if error.None? then CameUpAs(l, log, m, env.now) else FailedAs(l, log, m, a, error.value))
  {
    hide AttemptFinished, FailedAs, CameUpAs;
    var s := cut.(log := log);
    AttemptFinishedIs(s, a, error, env);
    FinishedFrame(s, a, error, env);
    SameOutcomes(l, s, log, AttemptFinished(s, a, l.cycle, error, env), a, if error.Some? then error.value else Foreign, env.now);
  }

  lemma SameInstall(l: Lifecycle, s: Lifecycle, log: seq<Effect>, m: Lifecycle, a: nat, cont: Cont, switching: bool, env: Env)
    requires l.phase == Reconnecting && s == l.(log := s.log, preparedExit := s.preparedExit)
    requires InstalledAs(s, log, m, a, cont, switching, env)
    ensures InstalledAs(l, log, m, a, cont, switching, env)
  {
    hide FailedAs, CameUpAs, Verdict, Ran;
    var answers := env.establish(0);
    if answers.settings.Err? {
      SameOutcomes(l, s, log, m, a, answers.settings.error, env.now);
    } else {
      var cut := Cut(log, switching);
      var verdict := Verdict(None, answers.fd, answers.start);
      SameRan(l, s, cut, None, answers.fd);
      SameOutcomes(l, s, Ran(l, cut, None, answers.fd), m, a, if verdict.Some? then verdict.value else Foreign, env.now);
      SameOutcomes(l, s, cut, m, a, Start(StartStopped), env.now);
    }
  }

  lemma EstablishSteps(l: Lifecycle, cont: Cont, switching: bool, env: Env)
    requires l.phase == Reconnecting
    ensures var answers := env.establish(0);
      var k := WithSession(l, answers);
      var asked := k.(log := l.log + [Prepared(k.targets.Current(), Reconnecting, l.cycle, l.cycle)]);
      Establish(l, answers, cont, l.cycle, switching, env) == (
        if !l.sessionReady && answers.session.Err? then (l, Done(Some(answers.session.error)))
        else if answers.prepare.Some? then (asked, Done(answers.prepare))
        else Install(asked.(preparedExit := Some(k.targets.Current())), answers, cont, l.cycle, switching, env))
  {
    hide Install;
  }

  lemma PreparedIs(l: Lifecycle, log: seq<Effect>, a: nat, cont: Cont, switching: bool, env: Env)
    requires l.phase == Reconnecting
    ensures var got := l.(log := log, preparedExit := Some(l.targets.Current()));
      var (s, o) := Install(got, env.establish(0), cont, l.cycle, switching, env);
      var m := Concluded(s, o, a, l.cycle, env);
      InstalledAs(l, log, m, a, cont, switching, env) && m.preparedExit == Some(l.targets.Current())
  {
    hide Install, InstalledAs, Concluded;
    var got := l.(log := log, preparedExit := Some(l.targets.Current()));
    InstallIs(got, a, cont, switching, env);
    var (s, o) := Install(got, env.establish(0), cont, l.cycle, switching, env);
    SameInstall(l, got, log, Concluded(s, o, a, l.cycle, env), a, cont, switching, env);
  }

  lemma EstablishIs(l: Lifecycle, a: nat, cont: Cont, switching: bool, env: Env)
    requires l.phase == Reconnecting
    ensures var (s, o) := Establish(l, env.establish(0), cont, l.cycle, switching, env);
      MadeAs(l, Concluded(s, o, a, l.cycle, env), a, cont, switching, env)
  {
    EstablishSteps(l, cont, switching, env);
    var answers := env.establish(0);
    var k := WithSession(l, answers);
    var log := l.log + [Prepared(k.targets.Current(), Reconnecting, l.cycle, l.cycle)];
    hide Establish, Install, AttemptFinished, FailedAs, CameUpAs, InstalledAs;
    if !l.sessionReady && answers.session.Err? {
      InstallEnds(l, l, a, Some(answers.session.error), l.log, env);
    } else {
      InstallEnds(k, k, a, answers.prepare, log, env);
      hide Concluded;
      PreparedIs(k, log, a, cont, switching, env);
      hide WithSession;
      if answers.prepare.Some? {
        assert Concluded(k.(log := log), Done(answers.prepare), a, l.cycle, env)
            == AttemptFinished(k.(log := log), a, l.cycle, answers.prepare, env) by { ConcludedDone(k.(log := log), answers.prepare, a, l.cycle, env); }
      }
    }
  }

  lemma ConcludedDone(l: Lifecycle, error: Option<Error>, a: nat, current: nat, env: Env)
    ensures Concluded(l, Done(error), a, current, env) == AttemptFinished(l, a, current, error, env)
  {
    hide AttemptFinished;
  }

  /** The attempt timer's firing: with the network down the session waits; the first attempt at the exit
      already prepared restarts the core over the open interface, and the tunnel is up if it starts,
      with nothing applied; else the route is prepared and its settings applied, as MadeAs says. */
  lemma ArmedAttemptComesTo(turns: seq<Turn>, l: Lifecycle, env: Env)
    requires Runs(Fresh, turns, l) && l.attemptTimer.Some?
    ensures l.phase == Reconnecting && l.attemptTimer.value < |l.jobs| && l.jobs[l.attemptTimer.value].work.RunAttempt?
    ensures var job := l.attemptTimer.value;
      var a := l.jobs[job].work.attempt;
      var m := DoFire(l, job, env);
      var started := CoreStarted(Reconnecting, l.cycle, l.cycle);
      var inPlace := a == 1 && l.preparedExit == Some(l.targets.Current());
      if l.latest.Some? && !l.latest.value.usable then WaitsAs(l, l.log, m)
      else if inPlace && env.fd >= 0 && env.start.None? then m.applies == l.applies && CameUpAs(l, l.log + [CoreStopped, started], m, env.now)
      else
        var log := l.log + (if !inPlace then [] else if env.fd < 0 then [CoreStopped] else [CoreStopped, started]) + [CoreStopped];
        MadeAs(l.(jobs := l.jobs[job := l.jobs[job].(live := false)], attemptTimer := None, log := log), m, a, AttemptMade(a, l.cycle), false, env)
  {
    RunsAreSettled(turns, l);
    AttemptFires(l, l.attemptTimer.value);
    hide Inv, Settled, Runs, OnRunAttempt, MadeAs, WaitsAs, CameUpAs;
    var job := l.attemptTimer.value;
    AttemptIs(l.(jobs := Cancelled(l.jobs, Some(job))), l.jobs[job].work.attempt, env);
  }

  lemma AttemptIs(l: Lifecycle, a: nat, env: Env)
    requires l.phase == Reconnecting
    ensures var m := OnRunAttempt(l, a, l.cycle, env);
      var started := CoreStarted(Reconnecting, l.cycle, l.cycle);
      var inPlace := a == 1 && l.preparedExit == Some(l.targets.Current());
      if l.latest.Some? && !l.latest.value.usable then WaitsAs(l, l.log, m)
      else if inPlace && env.fd >= 0 && env.start.None? then m.applies == l.applies && CameUpAs(l, l.log + [CoreStopped, started], m, env.now)
      else
        var log := l.log + (if !inPlace then [] else if env.fd < 0 then [CoreStopped] else [CoreStopped, started]) + [CoreStopped];
        MadeAs(l.(attemptTimer := None, log := log), m, a, AttemptMade(a, l.cycle), false, env)
  {
    hide EnterWaiting, AttemptFinished, MadeAttempt, MadeAs, FailedAs, CameUpAs;
    var r := l.(attemptTimer := None);
    EnterWaitingIs(r);
    var s := RestartInPlace(r, env).0;
    assert RestartInPlace(r, env) == (r.(log := s.log), env.fd >= 0 && env.start.None?);
    assert s.log == l.log + if env.fd < 0 then [CoreStopped] else [CoreStopped, CoreStarted(Reconnecting, l.cycle, l.cycle)];
    InstallEnds(r, s, a, None, s.log, env);
    SameOutcomes(l, r, s.log, AttemptFinished(s, a, l.cycle, None, env), a, Foreign, env.now);
    MadeIs(r, a, env);
    MadeIs(s, a, env);
    var ran := if env.fd < 0 then [CoreStopped] else [CoreStopped, CoreStarted(Reconnecting, l.cycle, l.cycle)];
    assert s.(log := s.log + [CoreStopped]) == l.(attemptTimer := None, log := l.log + ran + [CoreStopped]);
    assert r.(log := r.log + [CoreStopped]) == l.(attemptTimer := None, log := l.log + [] + [CoreStopped]) by { assert l.log + [] == l.log; }
    hide WaitsAs, RestartInPlace;
  }

  lemma MadeIs(l: Lifecycle, a: nat, env: Env)
    requires l.phase == Reconnecting
    ensures MadeAs(l.(log := l.log + [CoreStopped]), MadeAttempt(l, a, l.cycle, env), a, AttemptMade(a, l.cycle), false, env)
  {
    hide Establish, AttemptFinished, MadeAs;
    EstablishIs(Do(l, CoreStopped), a, AttemptMade(a, l.cycle), false, env);
  }

  // ---- Liveness ----

  /** The last handshake is over three minutes old, and the tunnel was not just brought up or woken. */
  predicate WentStale(l: Lifecycle, env: Env) {
    && env.lastHandshake > 0 && env.wallNow - env.lastHandshake as real > 180.0
    && (l.graceUntil.Some? ==> env.now >= l.graceUntil.value)
  }

  /** A tunnel that is up is watched: one liveness timer is armed. When it fires, a stale tunnel begins a
      recovery at once and any other is left alone, with the next look armed 15 seconds on. */
  lemma LivenessTickComesTo(turns: seq<Turn>, l: Lifecycle, job: nat, env: Env)
    requires Runs(Fresh, turns, l) && l.phase == Running
    ensures Watching(l.jobs, l.livenessTimer)
    ensures job < |l.jobs| && l.jobs[job].live && l.jobs[job].work == LivenessTick ==>
      var m := DoFire(l, job, env);
      if WentStale(l, env) then RecoveryBegun(l, m, 0.0)
      else (m == l.(jobs := m.jobs, livenessTimer := m.livenessTimer) && m.livenessTimer.Some?
        && m.livenessTimer.value < |m.jobs| && m.jobs[m.livenessTimer.value] == Job(LivenessTick, 15.0, true))
  {
    RunsAreSettled(turns, l);
    if job < |l.jobs| && l.jobs[job].live && l.jobs[job].work == LivenessTick {
      hide Inv, Runs, BeginRecovery, RecoveryBegun;
      var t := l.(jobs := Cancelled(l.jobs, Some(job)), livenessTimer := None);
      BeginRecoveryIs(t, 0.0);
      BegunFrom(l, t, BeginRecovery(t, 0.0), 0.0);
    }
  }

  lemma BegunFrom(l: Lifecycle, t: Lifecycle, m: Lifecycle, after: real)
    requires RecoveryBegun(t, m, after)
    requires t.cycle == l.cycle && t.log == l.log && t.outage == l.outage && t.applies == l.applies
    ensures RecoveryBegun(l, m, after) && m.phase == Reconnecting
  {
  }

  /** Waking asks for two looks, after 17 and 32 seconds, and gives the tunnel 15 seconds of grace. */
  lemma WakeComesTo(turns: seq<Turn>, l: Lifecycle, env: Env)
    requires Runs(Fresh, turns, l)
    ensures var m := DoWake(l, env);
      if l.phase != Running then m == l
      else (m == l.(jobs := m.jobs, wakeTimers := m.wakeTimers, graceUntil := Some(env.now + 15.0))
        && |m.wakeTimers| == 2 && m.wakeTimers[0] < |m.jobs| && m.wakeTimers[1] < |m.jobs|
        && m.jobs[m.wakeTimers[0]] == Job(WakeCheck, 17.0, true) && m.jobs[m.wakeTimers[1]] == Job(WakeCheck, 32.0, true)
        && forall t :: t in l.wakeTimers ==> t < |m.jobs| && !m.jobs[t].live)
  {
    RunsAreSettled(turns, l);
    hide Runs, Record, Watchdogs, OnlyAttempt, OlderBut, CancelledAll;
    CancelledAllAreDead(l.jobs, l.wakeTimers);
  }

  lemma {:induction false} CancelledAllAreDead(jobs: seq<Job>, ts: seq<nat>)
    requires forall t :: t in ts ==> t < |jobs|
    ensures |CancelledAll(jobs, ts)| == |jobs|
    ensures forall j :: 0 <= j < |jobs| && !jobs[j].live ==> !CancelledAll(jobs, ts)[j].live
    ensures forall t :: t in ts ==> !CancelledAll(jobs, ts)[t].live
    decreases |ts|
  {
    if ts != [] {
      assert ts == [ts[0]] + ts[1..];
      assert forall t :: t in ts[1..] ==> t in ts;
      CancelledAllAreDead(Cancelled(jobs, Some(ts[0])), ts[1..]);
    }
  }

  /** A look after waking finds the tunnel stale, or leaves it. */
  lemma WakeCheckComesTo(turns: seq<Turn>, l: Lifecycle, job: nat, env: Env)
    requires Runs(Fresh, turns, l)
    requires job < |l.jobs| && l.jobs[job].live && l.jobs[job].work == WakeCheck
    ensures var m := DoFire(l, job, env);
      if l.phase == Running && WentStale(l, env) then RecoveryBegun(l, m, 0.0)
      else m == l.(jobs := l.jobs[job := l.jobs[job].(live := false)])
  {
    hide Runs, BeginRecovery, RecoveryBegun;
    var t := l.(jobs := Cancelled(l.jobs, Some(job)));
    BeginRecoveryIs(t, 0.0);
    BegunFrom(l, t, BeginRecovery(t, 0.0), 0.0);
  }

  // ---- Stopping and starting ----

  /** The timers held before are all dead. */
  ghost predicate HeldAreDead(l: Lifecycle, jobs: seq<Job>) {
    && (l.attemptTimer.Some? && l.attemptTimer.value < |jobs| ==> !jobs[l.attemptTimer.value].live)
    && (l.recheckTimer.Some? && l.recheckTimer.value < |jobs| ==> !jobs[l.recheckTimer.value].live)
    && (l.livenessTimer.Some? && l.livenessTimer.value < |jobs| ==> !jobs[l.livenessTimer.value].live)
    && (forall t :: t in l.wakeTimers && t < |jobs| ==> !jobs[t].live)
  }

  lemma CancelTimersKillsAll(l: Lifecycle)
    requires TimerRefs(l.jobs, l.attemptTimer, l.recheckTimer, l.livenessTimer, l.wakeTimers)
    ensures HeldAreDead(l, CancelTimers(l).jobs) && |CancelTimers(l).jobs| == |l.jobs|
  {
    var some := Cancelled(Cancelled(Cancelled(l.jobs, l.attemptTimer), l.recheckTimer), l.livenessTimer);
    CancelledAllAreDead(some, l.wakeTimers);
    hide CancelledAll;
  }

  function Abandoned(l: Lifecycle): seq<Effect> {
    if l.pending.Some? then [Completed(l.pending.value.id, Some(Start(StartStopped)))] else []
  }

  /** A stop leaves a new cycle in which nothing is up, told or pending: the core is stopped, every timer
      held is dead, a pending start completes as stopped, and the stop is told unless already stopped. */
  lemma StopComesTo(turns: seq<Turn>, l: Lifecycle)
    requires Runs(Fresh, turns, l)
    ensures var m := DoStop(l);
      && m.phase == Stopped && m.cycle == l.cycle + 1 && m.pending.None? && !m.everConnected && !m.outage
      && m.log == l.log + [CoreStopped] + Abandoned(l) + (if l.phase == Stopped then [] else [Told(TunnelStopped)])
      && m.attemptTimer.None? && m.recheckTimer.None? && m.livenessTimer.None? && m.wakeTimers == []
      && HeldAreDead(l, m.jobs) && m.applies == l.applies
  {
    RunsAreSettled(turns, l);
    hide Runs, Record, Watchdogs, OnlyAttempt, Flight, HeldAreDead, CancelTimers, Settled, TimerRefs;
    var u := l.(phase := Stopped, cycle := l.cycle + 1);
    CancelTimersFrame(u);
    CancelTimersKillsAll(u);
    SameHeld(u, l, CancelTimers(u).jobs);
  }

  lemma SameHeld(l: Lifecycle, m: Lifecycle, jobs: seq<Job>)
    requires HeldAreDead(l, jobs)
    requires m.attemptTimer == l.attemptTimer && m.recheckTimer == l.recheckTimer && m.livenessTimer == l.livenessTimer && m.wakeTimers == l.wakeTimers
    ensures HeldAreDead(m, jobs)
  {
  }

  /** A new session: nothing is known, applied, up, told or armed. */
  ghost predicate NewSession(l: Lifecycle) {
    && !l.sessionReady && !l.blockingDone && l.targets.ids == [] && l.preparedExit.None? && l.latest.None? && l.startBaseline.None?
    && l.appliedFingerprint.None? && l.policy.lastKey.None? && !l.policy.waiting && l.graceUntil.None?
    && !l.everConnected && !l.outage && l.attemptTimer.None? && l.recheckTimer.None? && l.livenessTimer.None? && l.wakeTimers == []
  }

  /** A start forgets the session before it, whose pending start completes as stopped, and hands the
      blocking routes to the system; with the host gone it completes as stopped itself. */
  lemma StartComesTo(turns: seq<Turn>, l: Lifecycle, option: Option<string>, env: Env)
    requires Runs(Fresh, turns, l)
    ensures var m := DoStart(l, option, env);
      && m.cycle == l.cycle + 1 && m.session == l.session + 1 && m.issued == l.issued + 1 && NewSession(m)
    ensures var m := DoStart(l, option, env);
      var log := l.log + Abandoned(l) + [Began(l.issued)];
      if !env.hostAlive then m.phase == Idle && m.pending.None? && m.applies == l.applies && m.log == log + [Completed(l.issued, Some(Start(StartStopped)))]
      else (m.phase == Starting && m.optionServer == option && m.pending == Some(Pending(m.cycle, l.issued)) && m.log == log
        && |m.applies| == |l.applies| + 1 && m.applies[..|l.applies|] == l.applies
        && |m.jobs| > 0 && m.jobs[|m.jobs| - 1] == Job(Watchdog(|l.applies|), 5.0, true)
        && m.applies[|l.applies|] == Apply(BlockingApplied(m.session), env.blockingFingerprint, |m.jobs| - 1, true))
  {
    hide Runs, ResetSession, FinishStart, CancelTimers;
    ResetIs(l);
    var r := ResetSession(l);
    var s := Do(r.(phase := Starting, optionServer := option, issued := r.issued + 1), Began(r.issued))
      .(pending := Some(Pending(r.cycle, r.issued)));
    RefusedAtOnce(s, env);
  }

  lemma ResetIs(l: Lifecycle)
    ensures var r := ResetSession(l);
      && r.cycle == l.cycle + 1 && r.session == l.session + 1 && r.issued == l.issued && NewSession(r)
      && r.log == l.log + Abandoned(l) && r.applies == l.applies
  {
    hide CancelTimers;
    var a := AbandonPendingStart(l);
    CancelTimersFrame(a.(cycle := a.cycle + 1, session := a.session + 1));
  }

  lemma RefusedAtOnce(l: Lifecycle, env: Env)
    requires l.phase == Starting && l.pending.Some? && l.pending.value.cycle == l.cycle && NewSession(l)
    ensures OnBlockingApplied(l, Some(Start(StartStopped)), l.session, env)
      == l.(phase := Idle, pending := None, log := l.log + [Completed(l.pending.value.id, Some(Start(StartStopped)))])
  {
    hide CancelTimers, GoOn, RunStartSequence;
    CancelTimersJobs(l.(pending := None, phase := Idle));
  }

  lemma CancelTimersJobs(l: Lifecycle)
    requires l.attemptTimer.None? && l.recheckTimer.None? && l.livenessTimer.None? && l.wakeTimers == []
    ensures CancelTimers(l) == l
  {
  }

  /** An answer nobody waits for is remembered, and that is all: when it came, and which settings are in
      force if it is no failure. */
  lemma StaleAnswerIsRemembered(turns: seq<Turn>, l: Lifecycle, i: nat, error: Option<Error>, env: Env)
    requires Runs(Fresh, turns, l) && i < |l.applies| && l.applies[i].loaded && !AwaitsApply(l, i)
    ensures l.applies[i].watchdog < |l.jobs|
    ensures OnCallback(l, i, error, env) == l.(
      jobs := l.jobs[l.applies[i].watchdog := l.jobs[l.applies[i].watchdog].(live := false)],
      applies := l.applies[i := l.applies[i].(loaded := false)],
      policy := l.policy.(appliedAt := Some(env.now)),
      appliedFingerprint := if error.None? then Some(l.applies[i].fingerprint) else l.appliedFingerprint)
  {
    RunsAreSettled(turns, l);
    AwaitsApplyIsAwaitsOnly(l, i);
    StaleAnswerIsInert(l, i, error, env);
    WatchdogIsNoAttempt(l, i);
    hide Inv, Settled, Runs, AwaitsOnly, AwaitsApply, SettingsAnswered;
  }

  // ---- Switching servers ----

  /** The candidates of a switch to `server`: it leads, and the server being left comes next. */
  ghost predicate LeadsTo(l: Lifecycle, m: Lifecycle, server: string, listed: seq<string>) {
    var left := if l.targets.Current() != "" then l.targets.Current() else if l.optionServer.Some? then l.optionServer.value else "";
    && m.targets.Current() == server && Distinct(m.targets.ids)
    && (forall n :: n in m.targets.ids <==> n != "" && (n == server || n == left || n in listed))
    && (left != "" && left != server ==> |m.targets.ids| > 1 && m.targets.ids[1] == left)
  }

  lemma RetargetLeads(l: Lifecycle, server: string, listed: seq<string>)
    requires server != ""
    ensures var r := Retarget(l, server, listed); LeadsTo(l, r, server, listed) && r == l.(targets := r.targets)
  {
    var left := if l.targets.Current() != "" then l.targets.Current() else if l.optionServer.Some? then l.optionServer.value else "";
    SwitchListLeadsWithTarget(server, left, listed);
    RetargetFacts(l, server, listed);
    hide ForSwitch;
  }

  /** A switch while the tunnel is up or recovering: a new cycle with every timer dead, in which the new
      server's route is prepared over the running core, which is stopped only once that succeeded. While
      waiting, only the candidates change; with no server named, or nothing to switch, nothing does. */
  lemma SwitchComesTo(turns: seq<Turn>, l: Lifecycle, server: string, listed: seq<string>, env: Env)
    requires Runs(Fresh, turns, l) && l.phase != Starting
    ensures var m := DoSwitch(l, server, listed, env);
      if server == "" || l.phase == Idle || l.phase == Stopped then m == l
      else if l.phase == Waiting then m == l.(targets := m.targets) && LeadsTo(l, m, server, listed)
      else exists s: Lifecycle :: SwitchFrom(l, s, server, listed) && MadeAs(s, m, 1, SwitchMade(l.cycle + 1), true, env)
  {
    RunsAreSettled(turns, l);
    hide Runs, Settled, Retarget, LeadsTo, MadeAs, BeginSwitch, SwitchFrom, Record, Watchdogs, OnlyAttempt, Flight, TimerRefs;
    if server != "" && l.phase in {Running, Reconnecting} {
      var s := BeginSwitchIs(l, server, listed, env);
    } else if server != "" && l.phase == Waiting {
      RetargetLeads(l, server, listed);
      assert DoSwitch(l, server, listed, env) == Retarget(l, server, listed) by { WaitingSwitch(l, server, listed, env); }
    }
  }

  lemma WaitingSwitch(l: Lifecycle, server: string, listed: seq<string>, env: Env)
    requires l.phase == Waiting
    ensures BeginSwitch(l, server, listed, env) == Retarget(l, server, listed)
  {
    hide Retarget, CancelTimers, Establish, SwitchFinished;
    RetargetFacts(l, server, listed);
  }

  lemma BeginSwitchIs(l: Lifecycle, server: string, listed: seq<string>, env: Env) returns (s: Lifecycle)
    requires l.phase in {Running, Reconnecting} && server != ""
    requires TimerRefs(l.jobs, l.attemptTimer, l.recheckTimer, l.livenessTimer, l.wakeTimers)
    ensures SwitchFrom(l, s, server, listed) && MadeAs(s, BeginSwitch(l, server, listed, env), 1, SwitchMade(l.cycle + 1), true, env)
  {
    hide HeldAreDead, CancelTimers, TimerRefs, Retarget, LeadsTo, MadeAs, Establish, SwitchFinished;
    RetargetLeads(l, server, listed);
    var u := Retarget(l, server, listed).(phase := Reconnecting, cycle := l.cycle + 1);
    CancelTimersFrame(u);
    CancelTimersKillsAll(u);
    s := CancelTimers(u);
    SameHeld(u, l, s.jobs);
    SameLead(l, Retarget(l, server, listed), s, server, listed);
    SwitchMakes(s, env);
  }

  ghost predicate SwitchFrom(l: Lifecycle, s: Lifecycle, server: string, listed: seq<string>) {
    && LeadsTo(l, s, server, listed) && HeldAreDead(l, s.jobs)
    && s == l.(phase := Reconnecting, cycle := l.cycle + 1, targets := s.targets, jobs := s.jobs,
         attemptTimer := None, recheckTimer := None, livenessTimer := None, wakeTimers := [])
  }

  lemma SameLead(l: Lifecycle, m: Lifecycle, n: Lifecycle, server: string, listed: seq<string>)
    requires LeadsTo(l, m, server, listed) && n.targets == m.targets
    ensures LeadsTo(l, n, server, listed)
  {
  }

  lemma SwitchMakes(l: Lifecycle, env: Env)
    requires l.phase == Reconnecting
    ensures var (q, o) := Establish(l, env.establish(0), SwitchMade(l.cycle), l.cycle, true, env);
      MadeAs(l, if o.InFlight? then q else SwitchFinished(q, o.error, l.cycle, env), 1, SwitchMade(l.cycle), true, env)
  {
    hide Establish, MadeAs, AttemptFinished, SwitchFinished;
    EstablishIs(l, 1, SwitchMade(l.cycle), true, env);
    EstablishCycle(l, env.establish(0), SwitchMade(l.cycle), l.cycle, true, env);
    var (q, o) := Establish(l, env.establish(0), SwitchMade(l.cycle), l.cycle, true, env);
    if o.Done? {
      SwitchIsFirst(q, o.error, env);
    }
  }

  // ---- A start on its way ----

  lemma HandleLogs(l: Lifecycle, u: PathUpdate, env: Env)
    ensures l.log <= Handle(l, u, env).log
  {
    hide EnterWaiting, BeginRecovery, RecoveryBegun;
    var (p, d) := l.policy.PathChanged(u.key, u.usable, env.now);
    EnterWaitingLogs(l.(policy := p));
    if d.ReconnectAfter? {
      BeginRecoveryIs(l.(policy := p), d.delay);
      assert l.log <= BeginRecovery(l.(policy := p), d.delay).log by { BegunLogs(l.(policy := p), BeginRecovery(l.(policy := p), d.delay), d.delay); }
    }
  }

  lemma BegunLogs(l: Lifecycle, m: Lifecycle, after: real)
    requires RecoveryBegun(l, m, after)
    ensures l.log <= m.log
  {
  }

  lemma RetryLogs(l: Lifecycle, attempt: nat, e: Error, env: Env)
    requires l.phase == Reconnecting
    ensures l.log <= Retry(l, attempt, e).log
  {
    hide Retry;
    AttemptFinishedLogs(l, attempt, l.cycle, Some(e), env);
  }

  lemma CameUpLogs(l: Lifecycle, env: Env)
    ensures l.log <= CameUp(l, env).log
  {
    hide CameUp;
    CameUpIs(l, env);
  }

  lemma GoOnLogs(l: Lifecycle, error: Option<Error>, env: Env)
    ensures l.log <= GoOn(l, error, env).log
  {
    hide Retry, CameUp, Handle;
    if error.Some? {
      RetryLogs(l.(phase := Reconnecting), 1, error.value, env);
    }
    CameUpLogs(l, env);
    var up := if error.Some? then Retry(l.(phase := Reconnecting), 1, error.value) else CameUp(l, env);
    if up.latest.Some? {
      HandleLogs(up, up.latest.value, env);
    }
  }

  lemma FinishStartLogs(l: Lifecycle, error: Option<Error>, started: nat, env: Env)
    ensures l.log <= FinishStart(l, error, started, env).log
  {
    hide GoOn, CancelTimers;
    if l.pending.Some? {
      var done := l.(pending := None);
      CancelTimersLogs(done.(phase := Idle));
      GoOnLogs(Succeeded(done, l.pending.value), error, env);
    }
  }

  lemma TryCandidateLogs(l: Lifecycle, index: nat, started: nat, env: Env)
    ensures l.log <= TryCandidate(l, index, started, env).log
    decreases !l.sessionReady, CandidatesLeft(l, index), 1
  {
    hide CandidateFinished, Establish, At;
    var t := l.(targets := At(l.targets.ids, index));
    AtKeepsIds(l.targets.ids, index);
    EstablishLogs(t, env.establish(index), CandidateTried(index, started), started, false, env);
    EstablishFrame(t, env.establish(index), CandidateTried(index, started), started, env);
    var (s, o) := Establish(t, env.establish(index), CandidateTried(index, started), started, false, env);
    if o.Done? {
      CandidateFinishedLogs(s, index, o.error, started, env);
    }
  }

  lemma CandidateFinishedLogs(l: Lifecycle, index: nat, error: Option<Error>, started: nat, env: Env)
    ensures l.log <= CandidateFinished(l, index, error, started, env).log
    decreases !l.sessionReady, CandidatesLeft(l, index), 0
  {
    hide TryCandidate, FinishStart;
    if error.Some? && index + 1 < |l.targets.ids| && WorthNextCandidate(error.value) {
      TryCandidateLogs(l, index + 1, started, env);
    }
    FinishStartLogs(l, error, started, env);
  }

  /** The candidate at `index` is the next one prepared. */
  ghost predicate AsksFor(log: seq<Effect>, ids: seq<string>, index: nat, cycle: nat, m: Lifecycle) {
    log + [Prepared(if index < |ids| then ids[index] else "", Starting, cycle, cycle)] <= m.log
  }

  lemma TryCandidateAsks(l: Lifecycle, index: nat, env: Env)
    requires l.phase == Starting && l.sessionReady && (index < |l.targets.ids| || index == 0)
    ensures AsksFor(l.log, l.targets.ids, index, l.cycle, TryCandidate(l, index, l.cycle, env))
  {
    hide CandidateFinished, Install;
    var t := l.(targets := At(l.targets.ids, index));
    var answers := env.establish(index);
    var asked := Prepared(t.targets.Current(), Starting, l.cycle, l.cycle);
    var got := PrepareRoute(t, answers.prepare, l.cycle).0;
    assert got.log == l.log + [asked];
    InstallKeeps(got, answers, CandidateTried(index, l.cycle), l.cycle, false, env);
    var (s, o) := Establish(t, answers, CandidateTried(index, l.cycle), l.cycle, false, env);
    assert got.log <= s.log;
    if o.Done? {
      CandidateFinishedLogs(s, index, o.error, l.cycle, env);
    }
  }

  /** Another candidate may do better than one that failed with `e`. */
  predicate Worth(e: Error) {
    e != Start(StartStopped) && !Says(e, DeviceLocked) && !Says(e, SignedOut) && !Says(e, SubscriptionExpired) && !Says(e, NoSubscription)
  }

  lemma WorthIs(e: Error)
    ensures WorthNextCandidate(e) <==> Worth(e)
  {
  }

  /** A start that ended with `e` completes: a system start goes on recovering with its traffic blocked,
      one for a named server, or one that never blocked, fails and leaves the lifecycle idle. */
  ghost predicate StartFailsAs(l: Lifecycle, log: seq<Effect>, m: Lifecycle, id: nat, blocked: bool, e: Error) {
    && m.pending.None?
    && (if blocked && l.optionServer.None? && e != Start(StartStopped) then m.phase in {Reconnecting, Waiting} && log + [Completed(id, None)] <= m.log
        else m.phase == Idle && m.log == log + [Completed(id, Some(e))])
  }

  lemma RetryStays(l: Lifecycle, attempt: nat, e: Error)
    requires l.phase == Reconnecting
    ensures Retry(l, attempt, e).pending == l.pending && Retry(l, attempt, e).phase in {Reconnecting, Waiting}
  {
    hide EnterWaiting, Delay, AfterFailure, RetryFailure, Missing, PathDown;
    EnterWaitingPending(l);
  }

  lemma HandleStays(l: Lifecycle, u: PathUpdate, env: Env)
    ensures Handle(l, u, env).pending == l.pending
    ensures l.phase in {Reconnecting, Waiting} ==> Handle(l, u, env).phase in {Reconnecting, Waiting}
  {
    hide EnterWaiting, BeginRecovery;
    var (p, d) := l.policy.PathChanged(u.key, u.usable, env.now);
    EnterWaitingPending(l.(policy := p));
    if d.ReconnectAfter? {
      BeginRecoveryPending(l.(policy := p), d.delay);
    }
  }

  lemma EnterWaitingPending(l: Lifecycle)
    ensures EnterWaiting(l).pending == l.pending && EnterWaiting(l).phase == Waiting
  {
    hide CancelTimers;
    CancelTimersFrame(l.(policy := l.policy.MarkWaiting(), phase := Waiting, cycle := l.cycle + 1));
  }

  lemma BeginRecoveryPending(l: Lifecycle, after: real)
    ensures BeginRecovery(l, after).pending == l.pending && BeginRecovery(l, after).phase == Reconnecting
  {
    hide CancelTimers;
    var t := AnnounceTrouble(l, Transient);
    CancelTimersFrame(t.(phase := Reconnecting, cycle := t.cycle + 1));
  }

  lemma FinishStartFails(l: Lifecycle, e: Error, env: Env)
    requires l.pending.Some? && l.pending.value.cycle == l.cycle
    ensures StartFailsAs(l, l.log, FinishStart(l, Some(e), l.cycle, env), l.pending.value.id, l.blockingDone, e)
  {
    hide Retry, CancelTimers, Handle;
    var done := l.(pending := None);
    CancelTimersFrame(done.(phase := Idle));
    var ok := Succeeded(done, l.pending.value);
    var r := ok.(phase := Reconnecting);
    assert r.log == l.log + [Completed(l.pending.value.id, None)];
    RetryStays(r, 1, e);
    RetryLogs(r, 1, e, env);
    var up := Retry(r, 1, e);
    if up.latest.Some? {
      HandleStays(up, up.latest.value, env);
      HandleLogs(up, up.latest.value, env);
    }
  }

  /** The start of `l` succeeded: told so once, and then as the last path reported meanwhile has it. Another
      network than the first one reported begins a recovery; one that went away is looked at again five
      seconds after the settings were applied. */
  ghost predicate StartsUpAs(l: Lifecycle, log: seq<Effect>, m: Lifecycle, id: nat) {
    var up := log + [Completed(id, None)] + [Told(Connected)];
    var first := if l.startBaseline == Some("") then None else l.startBaseline;
    && m.pending.None?
    && (if l.latest.Some? && l.latest.value.usable && l.latest.value.key != "" && first.Some? && first.value != l.latest.value.key
        then m.phase == Reconnecting && m.cycle == l.cycle + 1 && Armed(m, 1, 1.5) && m.log == up + [Told(TunnelReconnecting)]
        else (m.phase == Running && m.cycle == l.cycle && m.log == up
          && (l.latest.Some? && !l.latest.value.usable ==> RecheckArmed(m, 5.0))))
  }

  lemma FinishStartSucceeds(l: Lifecycle, env: Env)
    requires l.pending.Some? && l.pending.value.cycle == l.cycle && Untold(l) && !l.policy.waiting && l.policy.appliedAt == Some(env.now)
    ensures StartsUpAs(l, l.log, FinishStart(l, None, l.cycle, env), l.pending.value.id)
  {
    hide CameUp, Handle;
    var ok := Succeeded(l.(pending := None), l.pending.value);
    assert FinishStart(l, None, l.cycle, env) == GoOn(ok, None, env);
    var up := CameUp(ok, env);
    CameUpIs(ok, env);
    CameUpSays(ok, env);
    assert up.log == l.log + [Completed(l.pending.value.id, None)] + [Told(Connected)];
    if up.latest.Some? {
      HandleIs(up, up.latest.value, env);
      HandleStays(up, up.latest.value, env);
    }
  }

  lemma CameUpSays(l: Lifecycle, env: Env)
    ensures var m := CameUp(l, env); m.policy == l.policy && m.pending == l.pending && m.everConnected && !m.outage
  {
    hide Cancelled;
  }

  /** The answer to the blocking routes: failed, the start fails; else its session's first candidate is
      prepared, or the start ends with the session it was refused. */
  lemma BlockingAnswerComesTo(turns: seq<Turn>, l: Lifecycle, i: nat, error: Option<Error>, env: Env)
    requires Runs(Fresh, turns, l) && l.phase == Starting && AwaitsApply(l, i) && l.applies[i].cont.BlockingApplied?
    ensures l.pending.Some?
    ensures var m := OnCallback(l, i, error, env);
      if error.Some? && error != Some(Start(SettingsTimeout)) then StartFailsAs(l, l.log, m, l.pending.value.id, false, error.value)
      else if !l.sessionReady && env.session.Err? then StartFailsAs(l, l.log, m, l.pending.value.id, true, env.session.error)
      else AsksFor(l.log, if l.sessionReady || l.targets.ids != [] then l.targets.ids else env.session.value, 0, l.cycle, m)
  {
    RunsAreSettled(turns, l);
    AwaitsApplyIsAwaitsOnly(l, i);
    hide Settled, Runs, OlderBut, StartFailsAs, AsksFor, RunStartSequence, FinishStart, Sound, OnCallback;
    BlockingAnswered(l, i, error, env);
  }

  lemma BlockingAnswered(l: Lifecycle, i: nat, error: Option<Error>, env: Env)
    requires i < |l.applies| && l.applies[i].loaded && l.applies[i].cont == BlockingApplied(l.session)
    requires l.phase == Starting && l.pending.Some? && l.pending.value.cycle == l.cycle && !l.blockingDone
    ensures var m := OnCallback(l, i, error, env);
      if error.Some? && error != Some(Start(SettingsTimeout)) then StartFailsAs(l, l.log, m, l.pending.value.id, false, error.value)
      else if !l.sessionReady && env.session.Err? then StartFailsAs(l, l.log, m, l.pending.value.id, true, env.session.error)
      else AsksFor(l.log, if l.sessionReady || l.targets.ids != [] then l.targets.ids else env.session.value, 0, l.cycle, m)
  {
    hide StartFailsAs, AsksFor, RunStartSequence, FinishStart, Cancelled;
    var c := Unloaded(l.(jobs := Cancelled(l.jobs, Some(l.applies[i].watchdog))), i, error, env.now);
    if error.Some? && error != Some(Start(SettingsTimeout)) {
      FinishStartFails(c, error.value, env);
      SameStartFails(l, c, l.log, FinishStart(c, error, l.cycle, env), l.pending.value.id, false, error.value);
    } else {
      var d := c.(blockingDone := true);
      StartSequenceIs(d, env);
      if !l.sessionReady && env.session.Err? {
        SameStartFails(l, d, l.log, RunStartSequence(d, l.cycle, env), l.pending.value.id, true, env.session.error);
      }
    }
  }

  lemma SameStartFails(l: Lifecycle, s: Lifecycle, log: seq<Effect>, m: Lifecycle, id: nat, blocked: bool, e: Error)
    requires s.optionServer == l.optionServer
    ensures StartFailsAs(l, log, m, id, blocked, e) <==> StartFailsAs(s, log, m, id, blocked, e)
  {
  }

  /** A start sequence begins with the session and its first candidate. */
  lemma StartSequenceIs(l: Lifecycle, env: Env)
    requires l.phase == Starting && l.pending.Some? && l.pending.value.cycle == l.cycle && l.blockingDone
    ensures var m := RunStartSequence(l, l.cycle, env);
      if !l.sessionReady && env.session.Err? then StartFailsAs(l, l.log, m, l.pending.value.id, true, env.session.error)
      else AsksFor(l.log, if l.sessionReady || l.targets.ids != [] then l.targets.ids else env.session.value, 0, l.cycle, m)
  {
    hide StartFailsAs, AsksFor, TryCandidate, FinishStart, At;
    var (s, e) := EnsureSession(l, env.session);
    if e.Some? {
      FinishStartFails(l, e.value, env);
    } else {
      if env.session.Ok? {
        AtKeepsIds(env.session.value, 0);
      }
      TryCandidateAsks(s, 0, env);
    }
  }

  /** The answer for a candidate: the start succeeds exactly when the settings are applied or only timed
      out, the interface is open and the core starts. Else the next candidate is prepared, if there is
      one and it may do better, and the start ends with this failure if not. */
  lemma CandidateAnswerComesTo(turns: seq<Turn>, l: Lifecycle, i: nat, error: Option<Error>, env: Env)
    requires Runs(Fresh, turns, l) && l.phase == Starting && AwaitsApply(l, i) && l.applies[i].cont.CandidateTried?
    ensures l.pending.Some?
    ensures var m := OnCallback(l, i, error, env);
      var next := l.applies[i].cont.index + 1;
      var verdict := Verdict(error, env.fd, env.start);
      var log := Ran(l, l.log, error, env.fd);
      if verdict.None? then StartsUpAs(l, log, m, l.pending.value.id)
      else if next < |l.targets.ids| && Worth(verdict.value) then AsksFor(log, l.targets.ids, next, l.cycle, m)
      else StartFailsAs(l, log, m, l.pending.value.id, true, verdict.value)
  {
    RunsAreSettled(turns, l);
    AwaitsApplyIsAwaitsOnly(l, i);
    hide Seen, Standing, Runs, OlderBut, StartFailsAs, StartsUpAs, AsksFor, FinishStart, Sound, OnCallback, Ran, Verdict, Worth;
    CandidateAnswered(l, i, error, env);
  }

  lemma CandidateAnswered(l: Lifecycle, i: nat, error: Option<Error>, env: Env)
    requires i < |l.applies| && l.applies[i].loaded && l.applies[i].cont.CandidateTried? && l.applies[i].cont.cycle == l.cycle
    requires l.phase == Starting && l.pending.Some? && l.pending.value.cycle == l.cycle && l.blockingDone && l.sessionReady
    requires Untold(l) && !l.policy.waiting
    ensures var m := OnCallback(l, i, error, env);
      var next := l.applies[i].cont.index + 1;
      var verdict := Verdict(error, env.fd, env.start);
      var log := Ran(l, l.log, error, env.fd);
      if verdict.None? then StartsUpAs(l, log, m, l.pending.value.id)
      else if next < |l.targets.ids| && Worth(verdict.value) then AsksFor(log, l.targets.ids, next, l.cycle, m)
      else StartFailsAs(l, log, m, l.pending.value.id, true, verdict.value)
  {
    hide StartFailsAs, StartsUpAs, AsksFor, CandidateFinished, StartCore, Cancelled, Ran, Verdict, Worth;
    var c := Unloaded(l.(jobs := Cancelled(l.jobs, Some(l.applies[i].watchdog))), i, error, env.now);
    StartCoreIs(c, error, env.fd, env.start);
    SameRan(l, c, l.log, error, env.fd);
    AnsweredFrame(l, i, error, env);
    CandidateEnds(Answered(l, i, error, env), l.applies[i].cont.index, Verdict(error, env.fd, env.start), env);
    SameStartEnds(l, Answered(l, i, error, env), OnCallback(l, i, error, env), Verdict(error, env.fd, env.start));
  }

  lemma SameStartEnds(l: Lifecycle, s: Lifecycle, m: Lifecycle, verdict: Option<Error>)
    requires s.optionServer == l.optionServer && s.latest == l.latest && s.startBaseline == l.startBaseline && s.cycle == l.cycle
    requires l.pending.Some?
    ensures StartsUpAs(s, s.log, m, l.pending.value.id) ==> StartsUpAs(l, s.log, m, l.pending.value.id)
    ensures verdict.Some? && StartFailsAs(s, s.log, m, l.pending.value.id, true, verdict.value) ==>
      StartFailsAs(l, s.log, m, l.pending.value.id, true, verdict.value)
  {
  }

  lemma CandidateEnds(l: Lifecycle, index: nat, verdict: Option<Error>, env: Env)
    requires l.phase == Starting && l.pending.Some? && l.pending.value.cycle == l.cycle && l.blockingDone && l.sessionReady
    requires Untold(l) && !l.policy.waiting && l.policy.appliedAt == Some(env.now)
    ensures var m := CandidateFinished(l, index, verdict, l.cycle, env);
      if verdict.None? then StartsUpAs(l, l.log, m, l.pending.value.id)
      else if index + 1 < |l.targets.ids| && Worth(verdict.value) then AsksFor(l.log, l.targets.ids, index + 1, l.cycle, m)
      else StartFailsAs(l, l.log, m, l.pending.value.id, true, verdict.value)
  {
    hide StartFailsAs, StartsUpAs, AsksFor, TryCandidate, FinishStart, Worth, WorthNextCandidate;
    if verdict.None? {
      FinishStartSucceeds(l, env);
    } else {
      WorthIs(verdict.value);
      if index + 1 < |l.targets.ids| && Worth(verdict.value) {
        TryCandidateAsks(l, index + 1, env);
      } else {
        FinishStartFails(l, verdict.value, env);
      }
    }
  }

  /** A switch during a start moves the start on: the same start under a new cycle, towards the new server,
      whose route is prepared at once if the blocking routes are up. */
  lemma SupersedeComesTo(turns: seq<Turn>, l: Lifecycle, server: string, listed: seq<string>, env: Env)
    requires Runs(Fresh, turns, l) && l.phase == Starting && server != ""
    ensures l.pending.Some?
    ensures var m := DoSwitch(l, server, listed, env);
      if l.blockingDone then l.log + [Prepared(server, Starting, l.cycle + 1, l.cycle + 1)] <= m.log
      else (m == l.(targets := m.targets, cycle := l.cycle + 1, pending := Some(Pending(l.cycle + 1, l.pending.value.id)))
        && LeadsTo(l, m, server, listed))
  {
    RunsAreSettled(turns, l);
    hide Seen, Standing, Runs, Flight, Sound, LeadsTo, Retarget, RunStartSequence, StartFailsAs;
    RetargetLeads(l, server, listed);
    var r := Retarget(l, server, listed);
    var s := r.(cycle := l.cycle + 1, pending := Some(Pending(l.cycle + 1, l.pending.value.id)));
    SameLead(l, r, s, server, listed);
    LeaderIsFirst(l, r, server, listed);
    if s.blockingDone {
      StartSequenceIs(s, env);
    }
  }

  lemma LeaderIsFirst(l: Lifecycle, m: Lifecycle, server: string, listed: seq<string>)
    requires LeadsTo(l, m, server, listed) && m == Retarget(l, server, listed) && server != ""
    ensures |m.targets.ids| > 0 && m.targets.ids[0] == server
  {
    var left := if l.targets.Current() == "" then (if l.optionServer.Some? then l.optionServer.value else "") else l.targets.Current();
    assert m.targets.index == 0;
  }

  /** A start remembers the first usable named path reported to it, and every one as the last. */
  lemma StartKeepsItsFirstPath(l: Lifecycle, u: PathUpdate, env: Env)
    requires l.phase in {Starting, Idle, Stopped}
    ensures DoPath(l, u, env) == l.(latest := Some(u), startBaseline :=
      if l.phase == Starting && l.startBaseline.None? && u.usable && u.key != "" then Some(u.key) else l.startBaseline)
  {
  }

  /** A host and a core with nothing to refuse. */
  ghost predicate AllWell(env: Env, ids: seq<string>) {
    && env.hostAlive && env.session == Ok(ids) && env.blockingFingerprint == 0
    && env.establish(0).prepare.None? && env.establish(0).settings == Ok(0) && env.establish(0).fd >= 0 && env.establish(0).start.None?
  }

  ghost predicate ComesUp(turns: seq<Turn>, l: Lifecycle, server: string) {
    && Runs(Fresh, turns, l) && l.phase == Running
    && l.log == [Began(0), Prepared(server, Starting, 1, 1), CoreStarted(Starting, 1, 1), Completed(0, None), Told(Connected)]
  }

  /** A run from the beginning to a tunnel that is up. */
  lemma AStartComesUp(server: string)
    ensures exists turns, l :: ComesUp(turns, l, server)
  {
    var answers := Answers(Ok([server]), None, Ok(0), 3, None);
    var env := Env(0.0, 0.0, 0, true, 0, Ok([server]), _ => answers, 3, None);
    var first, second := Turn(StartTunnel(None), env), Turn(Callback(0, None), env);
    var blocking := StartBlocks(env);
    var m := OnCallback(blocking, 0, None, env);
    StartGoesUp(blocking, server, env);
    assert Runs(m, [], m);
    assert Runs(blocking, [second], m) by { assert [second][1..] == []; }
    assert Runs(Fresh, [first, second], m) by { assert [first, second][1..] == [second]; hide DoStart, OnCallback; }
    assert ComesUp([first, second], m, server);
  }

  lemma StartBlocks(env: Env) returns (l: Lifecycle)
    requires env.hostAlive
    ensures l == DoStart(Fresh, None, env) && l.log == [Began(0)] && NewSession(l)
    ensures l.phase == Starting && l.pending == Some(Pending(1, 0)) && l.cycle == 1 && l.session == 1
    ensures l.applies == [Apply(BlockingApplied(1), env.blockingFingerprint, 0, true)]
  {
    l := DoStart(Fresh, None, env);
    assert ResetSession(Fresh) == Fresh.(cycle := 1, session := 1) by {
      CancelTimersJobs(Fresh.(cycle := 1, session := 1));
    }
  }

  lemma StartGoesUp(l: Lifecycle, server: string, env: Env)
    requires AllWell(env, [server]) && NewSession(l)
    requires l.phase == Starting && l.pending == Some(Pending(1, 0)) && l.cycle == 1 && l.session == 1 && l.log == [Began(0)]
    requires l.applies == [Apply(BlockingApplied(1), 0, 0, true)]
    ensures var m := OnCallback(l, 0, None, env);
      m.phase == Running && m.log == [Began(0), Prepared(server, Starting, 1, 1), CoreStarted(Starting, 1, 1), Completed(0, None), Told(Connected)]
  {
    hide FinishStart, Cancelled;
    var c := Unloaded(l.(jobs := Cancelled(l.jobs, Some(0))), 0, None, env.now);
    var d := c.(blockingDone := true);
    assert OnCallback(l, 0, None, env) == RunStartSequence(d, 1, env);
    var k := d.(sessionReady := true, targets := CandidateList([server], 0));
    assert RunStartSequence(d, 1, env) == TryCandidate(k, 0, 1, env);
    var log := [Began(0), Prepared(server, Starting, 1, 1), CoreStarted(Starting, 1, 1)];
    var up := k.(preparedExit := Some(server), log := log);
    assert Establish(k, env.establish(0), CandidateTried(0, 1), 1, false, env) == (up, Done(None)) by {
      assert [Began(0)] + [Prepared(server, Starting, 1, 1)] + [CoreStarted(Starting, 1, 1)] == log;
    }
    assert TryCandidate(k, 0, 1, env) == CandidateFinished(up, 0, None, 1, env) == FinishStart(up, None, 1, env);
    FinishStartSucceeds(up, env);
    assert log + [Completed(0, None)] + [Told(Connected)]
        == [Began(0), Prepared(server, Starting, 1, 1), CoreStarted(Starting, 1, 1), Completed(0, None), Told(Connected)];
  }
}
