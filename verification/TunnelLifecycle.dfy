/** The lifecycle object itself: its methods update the fields step by step, and each is proved to
    do exactly what the function of the same step in module Lifecycle says. */
module LifecycleObject {
  import opened Support
  import opened Reconnect
  import L = Lifecycle
  import R = LifecycleRuns

  class TunnelLifecycle {
    var phase: L.Phase
    var policy: Policy
    var graceUntil: Option<real>
    var targets: Candidates
    var optionServer: Option<string>
    var sessionReady: bool
    var blockingDone: bool
    var preparedExit: Option<string>
    var appliedFingerprint: Option<L.Fingerprint>
    var cycle: nat
    var session: nat
    var pendingStart: Option<L.Pending>
    var attemptTimer: Option<nat>
    var recheckTimer: Option<nat>
    var livenessTimer: Option<nat>
    var wakeTimers: seq<nat>
    var latest: Option<L.PathUpdate>
    var startBaseline: Option<string>
    var everConnected: bool
    var outage: bool
    // The schedulers' timers, the applies handed to the system, the starts issued, the effects.
    var jobs: seq<L.Job>
    var applies: seq<L.Apply>
    var issued: nat
    var log: seq<L.Effect>

    ghost function Model(): L.Lifecycle
      reads this
    {
      L.Lifecycle(phase, policy, graceUntil, targets, optionServer, sessionReady, blockingDone, preparedExit,
        appliedFingerprint, cycle, session, pendingStart, attemptTimer, recheckTimer, livenessTimer, wakeTimers,
        latest, startBaseline, everConnected, outage, jobs, applies, issued, log)
    }

    constructor ()
      ensures Model() == L.Fresh && R.Inv(Model())
    {
      phase, policy, graceUntil, targets := L.Idle, FreshPolicy, None, CandidateList([], 0);
      optionServer, sessionReady, blockingDone := None, false, false;
      preparedExit, appliedFingerprint := None, None;
      cycle, session, pendingStart := 0, 0, None;
      attemptTimer, recheckTimer, livenessTimer, wakeTimers := None, None, None, [];
      latest, startBaseline, everConnected, outage := None, None, false, false;
      jobs, applies, issued, log := [], [], 0, [];
      new;
      hide R.Inv;
      R.FreshInv();
    }

    // ---- Effects and timers ----

    method CancelJob(t: Option<nat>)
      modifies this`jobs
      ensures jobs == L.Cancelled(old(jobs), t)
    {
      if t.Some? && t.value < |jobs| {
        jobs := jobs[t.value := jobs[t.value].(live := false)];
      }
    }

    method CancelWakeTimers()
      modifies this`jobs, this`wakeTimers
      ensures jobs == L.CancelledAll(old(jobs), old(wakeTimers)) && wakeTimers == []
    {
      var i := 0;
      while i < |wakeTimers|
        invariant i <= |wakeTimers| && wakeTimers == old(wakeTimers)
        invariant L.CancelledAll(jobs, wakeTimers[i..]) == L.CancelledAll(old(jobs), old(wakeTimers))
      {
        CancelJob(Some(wakeTimers[i]));
        i := i + 1;
        assert wakeTimers[i - 1..][1..] == wakeTimers[i..];
      }
      wakeTimers := [];
    }

    method CancelTimers()
      modifies this`jobs, this`attemptTimer, this`recheckTimer, this`livenessTimer, this`wakeTimers
      ensures Model() == L.CancelTimers(old(Model()))
    {
      hide L.Cancelled, L.CancelledAll;
      ghost var before := Model();
      CancelJob(attemptTimer);
      attemptTimer := None;
      CancelJob(recheckTimer);
      recheckTimer := None;
      CancelJob(livenessTimer);
      livenessTimer := None;
      CancelWakeTimers();
      assert Model() == before.(jobs := jobs, attemptTimer := None, recheckTimer := None, livenessTimer := None, wakeTimers := []);
    }

    method After(delay: real, work: L.Work) returns (timer: nat)
      modifies this`jobs
      ensures timer == |old(jobs)| && jobs == old(jobs) + [L.Job(work, delay, true)]
    {
      timer := |jobs|;
      jobs := jobs + [L.Job(work, delay, true)];
    }

    method ScheduleAttempt(attempt: nat, delay: real)
      modifies this`jobs, this`attemptTimer
      ensures Model() == L.ScheduleAttempt(old(Model()), attempt, delay)
    {
      var timer := After(delay, L.RunAttempt(attempt, cycle));
      attemptTimer := Some(timer);
    }

    // ---- Starting and stopping ----

    method AbandonPendingStart()
      modifies this`pendingStart, this`log
      ensures Model() == L.AbandonPendingStart(old(Model()))
    {
      if pendingStart.Some? {
        var id := pendingStart.value.id;
        pendingStart := None;
        log := log + [L.Completed(id, Some(Start(StartStopped)))];
      }
    }

    method ResetSession()
      modifies this
      ensures Model() == L.ResetSession(old(Model()))
    {
      hide L.CancelTimers, L.AbandonPendingStart, L.ForgetSession;
      AbandonPendingStart();
      cycle := cycle + 1;
      session := session + 1;
      CancelTimers();
      ForgetSession();
    }

    method ForgetSession()
      modifies this
      ensures Model() == L.ForgetSession(old(Model()))
    {
      ForgetRoute();
      optionServer := None;
      blockingDone := false;
      latest := None;
      startBaseline := None;
      everConnected := false;
      outage := false;
    }

    method ForgetRoute()
      modifies this`policy, this`graceUntil, this`targets, this`sessionReady, this`preparedExit, this`appliedFingerprint
      ensures policy == FreshPolicy && graceUntil.None? && targets == CandidateList([], 0)
      ensures !sessionReady && preparedExit.None? && appliedFingerprint.None?
    {
      policy := FreshPolicy;
      graceUntil := None;
      targets := CandidateList([], 0);
      sessionReady := false;
      preparedExit := None;
      appliedFingerprint := None;
    }

    method Begin(option: Option<string>, env: L.Env)
      modifies this
      ensures Model() == L.DoStart(old(Model()), option, env)
    {
      hide L.ResetSession, L.ApplyBlocking;
      ResetSession();
      phase := L.Starting;
      optionServer := option;
      var id := issued;
      issued := issued + 1;
      log := log + [L.Began(id)];
      pendingStart := Some(L.Pending(cycle, id));
      ApplyBlocking(env);
    }

    method Stop()
      modifies this
      ensures Model() == L.DoStop(old(Model()))
    {
      hide L.CancelTimers, L.AbandonPendingStart;
      var announce := phase != L.Stopped;
      MoveTo(L.Stopped);
      log := log + [L.CoreStopped];
      AbandonPendingStart();
      EndEvents(announce);
    }

    method EndEvents(announce: bool)
      modifies this`everConnected, this`outage, this`log
      ensures var quiet := old(Model()).(everConnected := false, outage := false);
        Model() == if announce then L.Do(quiet, L.Told(L.TunnelStopped)) else quiet
    {
      everConnected := false;
      outage := false;
      if announce {
        log := log + [L.Told(L.TunnelStopped)];
      }
    }

    /** The step every stop, wait, recovery and switch shares: a new phase under a new cycle, with
        no timer left. */
    method MoveTo(next: L.Phase)
      modifies this
      ensures Model() == L.CancelTimers(old(Model()).(phase := next, cycle := old(cycle) + 1))
    {
      hide L.CancelTimers;
      phase := next;
      cycle := cycle + 1;
      CancelTimers();
    }

    // ---- Settings applies ----

    /** One apply handed to the system, with its watchdog. */
    method Load(fingerprint: L.Fingerprint, cont: L.Cont)
      modifies this`jobs, this`applies
      ensures jobs == old(jobs) + [L.Job(L.Watchdog(|old(applies)|), L.SETTINGS_TIMEOUT, true)]
      ensures applies == old(applies) + [L.Apply(cont, fingerprint, |old(jobs)|, true)]
    {
      var watchdog := After(L.SETTINGS_TIMEOUT, L.Watchdog(|applies|));
      applies := applies + [L.Apply(cont, fingerprint, watchdog, true)];
    }

    method ApplySettings(fingerprint: L.Fingerprint, cont: L.Cont, env: L.Env)
      modifies this`appliedFingerprint, this`policy, this`jobs, this`applies
      ensures Model() == L.ApplySettings(old(Model()), fingerprint, cont, env)
    {
      appliedFingerprint := None;
      policy := policy.SettingsApplied(env.now);
      Load(fingerprint, cont);
    }

    method ApplyBlocking(env: L.Env)
      modifies this
      ensures Model() == L.ApplyBlocking(old(Model()), env)
    {
      if env.hostAlive {
        ApplySettings(env.blockingFingerprint, L.BlockingApplied(session), env);
      } else {
        BlockingApplied(Some(Start(StartStopped)), session, env);
      }
    }

    method SettingsAnswered(id: nat, error: Option<Error>, env: L.Env)
      requires id < |applies|
      modifies this
      ensures Model() == L.SettingsAnswered(old(Model()), id, error, env)
    {
      var cont := applies[id].cont;
      Unload(id, error, env.now);
      Continue(cont, L.ProceedingPastTimeout(error), env);
    }

    method Unload(id: nat, error: Option<Error>, now: real)
      requires id < |applies|
      modifies this`applies, this`policy, this`appliedFingerprint
      ensures Model() == L.Unloaded(old(Model()), id, error, now)
    {
      var a := applies[id];
      applies := applies[id := a.(loaded := false)];
      policy := policy.SettingsApplied(now);
      if error.None? {
        appliedFingerprint := Some(a.fingerprint);
      }
    }

    method Continue(cont: L.Cont, passed: Option<Error>, env: L.Env)
      modifies this
      ensures Model() == L.Continue(old(Model()), cont, passed, env)
    {
      hide L.StartCore, L.OnBlockingApplied, L.CandidateFinished, L.AttemptFinished, L.SwitchFinished;
      match cont
      case BlockingApplied(s) => BlockingApplied(passed, s, env);
      case CandidateTried(index, c) =>
        var e := StartCore(passed, c, env.fd, env.start);
        CandidateFinished(index, e, c, env);
      case AttemptMade(attempt, c) =>
        var e := StartCore(passed, c, env.fd, env.start);
        AttemptFinished(attempt, c, e, env);
      case SwitchMade(c) =>
        var e := StartCore(passed, c, env.fd, env.start);
        SwitchFinished(e, c, env);
    }

    method Callback(id: nat, error: Option<Error>, env: L.Env)
      requires id < |applies|
      modifies this
      ensures Model() == L.OnCallback(old(Model()), id, error, env)
    {
      CancelJob(Some(applies[id].watchdog));
      if applies[id].loaded {
        SettingsAnswered(id, error, env);
      }
    }

    method WatchdogFired(id: nat, env: L.Env)
      modifies this
      ensures Model() == L.OnWatchdog(old(Model()), id, env)
    {
      if id < |applies| && applies[id].loaded {
        SettingsAnswered(id, Some(Start(SettingsTimeout)), env);
      }
    }

    // ---- The start sequence ----

    method BlockingApplied(error: Option<Error>, started: nat, env: L.Env)
      modifies this
      ensures Model() == L.OnBlockingApplied(old(Model()), error, started, env)
    {
      if started != session || phase != L.Starting || pendingStart.None? {
        return;
      }
      var pending := pendingStart.value;
      if error.Some? {
        FinishStart(error, pending.cycle, env);
        return;
      }
      blockingDone := true;
      RunStartSequence(pending.cycle, env);
    }

    method RunStartSequence(started: nat, env: L.Env)
      modifies this
      ensures Model() == L.RunStartSequence(old(Model()), started, env)
    {
      var failed := EnsureSession(env.session);
      if failed.Some? {
        FinishStart(failed, started, env);
        return;
      }
      TryCandidate(0, started, env);
    }

    method EnsureSession(answer: Result<seq<string>, Error>) returns (failed: Option<Error>)
      modifies this`targets, this`sessionReady
      ensures (Model(), failed) == L.EnsureSession(old(Model()), answer)
      ensures sessionReady == old(sessionReady) ==> targets == old(targets)
      ensures old(sessionReady) ==> sessionReady
    {
      if sessionReady {
        return None;
      }
      if answer.Err? {
        return Some(answer.error);
      }
      if targets.ids == [] {
        targets := At(answer.value, 0);
      }
      sessionReady := true;
      failed := None;
    }

    method TryCandidate(index: nat, started: nat, env: L.Env)
      modifies this
      ensures Model() == L.TryCandidate(old(Model()), index, started, env)
      decreases !sessionReady, L.CandidatesLeft(Model(), index), 1
    {
      hide L.CandidateFinished, L.Establish;
      targets := At(targets.ids, index);
      var answers := env.establish(index);
      var outcome := Establish(answers, L.CandidateTried(index, started), started, false, env);
      if outcome.Done? {
        CandidateFinished(index, outcome.error, started, env);
      }
    }

    method CandidateFinished(index: nat, error: Option<Error>, started: nat, env: L.Env)
      modifies this
      ensures Model() == L.CandidateFinished(old(Model()), index, error, started, env)
      decreases !sessionReady, L.CandidatesLeft(Model(), index), 0
    {
      if started != cycle || pendingStart.None? || pendingStart.value.cycle != started {
        return;
      }
      if error.None? {
        FinishStart(None, started, env);
        return;
      }
      var next := index + 1;
      if next < |targets.ids| && L.WorthNextCandidate(error.value) {
        TryCandidate(next, started, env);
      } else {
        FinishStart(error, started, env);
      }
    }

    method FinishStart(error: Option<Error>, started: nat, env: L.Env)
      modifies this
      ensures Model() == L.FinishStart(old(Model()), error, started, env)
    {
      hide L.GoOn, L.FailStart, L.Succeeded;
      if pendingStart.Some? && pendingStart.value.cycle == started {
        var pending := pendingStart.value;
        pendingStart := None;
        if error.Some? && !(optionServer.None? && blockingDone && !IsStopped(error.value)) {
          FailStart(error.value, pending);
        } else {
          Succeed(pending);
          GoOn(error, env);
        }
      }
    }

    method Succeed(pending: L.Pending)
      modifies this`policy, this`log
      ensures Model() == L.Succeeded(old(Model()), pending)
    {
      if startBaseline.Some? {
        policy := policy.Seed(startBaseline.value);
      }
      log := log + [L.Completed(pending.id, None)];
    }

    method GoOn(error: Option<Error>, env: L.Env)
      modifies this
      ensures Model() == L.GoOn(old(Model()), error, env)
    {
      hide L.Retry, L.CameUp, L.Handle;
      if error.Some? {
        phase := L.Reconnecting;
        Retry(1, error.value);
      } else {
        CameUp(env);
      }
      if latest.Some? {
        Handle(latest.value, env);
      }
    }

    method FailStart(e: Error, pending: L.Pending)
      modifies this
      ensures Model() == L.FailStart(old(Model()), e, pending)
    {
      phase := L.Idle;
      CancelTimers();
      log := log + [L.Completed(pending.id, Some(e))];
    }

    // ---- Establishing ----

    method Establish(answers: L.Answers, cont: L.Cont, current: nat, switching: bool, env: L.Env)
      returns (outcome: L.Outcome)
      modifies this
      ensures (Model(), outcome) == L.Establish(old(Model()), answers, cont, current, switching, env)
      ensures sessionReady == old(sessionReady) ==> targets == old(targets)
      ensures old(sessionReady) ==> sessionReady
    {
      hide L.EnsureSession, L.PrepareRoute, L.Install;
      var failed := EnsureSession(answers.session);
      if failed.None? {
        failed := PrepareRoute(answers.prepare, current);
        if failed.None? {
          outcome := Install(answers, cont, current, switching, env);
          return;
        }
      }
      outcome := L.Done(failed);
    }

    method Install(answers: L.Answers, cont: L.Cont, current: nat, switching: bool, env: L.Env)
      returns (outcome: L.Outcome)
      modifies this`log, this`appliedFingerprint, this`policy, this`jobs, this`applies
      ensures (Model(), outcome) == L.Install(old(Model()), answers, cont, current, switching, env)
    {
      hide L.StartCore, L.ApplySettings;
      if answers.settings.Err? {
        return L.Done(Some(answers.settings.error));
      }
      var fingerprint := answers.settings.value;
      if switching {
        log := log + [L.CoreStoppedForSwitch];
      }
      if appliedFingerprint == Some(fingerprint) {
        var failed := StartCore(None, current, answers.fd, answers.start);
        outcome := L.Done(failed);
      } else if env.hostAlive {
        ApplySettings(fingerprint, cont, env);
        outcome := L.InFlight;
      } else {
        outcome := L.Done(Some(Start(StartStopped)));
      }
    }

    method PrepareRoute(refused: Option<Error>, current: nat) returns (failed: Option<Error>)
      modifies this`log, this`preparedExit
      ensures (Model(), failed) == L.PrepareRoute(old(Model()), refused, current)
    {
      var exit := targets.Current();
      log := log + [L.Prepared(exit, phase, cycle, current)];
      if refused.Some? {
        return refused;
      }
      preparedExit := Some(exit);
      failed := None;
    }

    method StartCore(settingsError: Option<Error>, current: nat, fd: int, start: Option<Error>)
      returns (failed: Option<Error>)
      modifies this`log
      ensures (Model(), failed) == L.StartCore(old(Model()), settingsError, current, fd, start)
    {
      if settingsError.Some? {
        return settingsError;
      }
      if phase == L.Stopped {
        return Some(Start(StartStopped));
      }
      if current != cycle {
        return Some(Superseded);
      }
      if fd < 0 {
        return Some(Start(NoTunnelInterface));
      }
      log := log + [L.CoreStarted(phase, cycle, current)];
      failed := start;
    }

    // ---- Up and down ----

    method CameUp(env: L.Env)
      modifies this
      ensures Model() == L.CameUp(old(Model()), env)
    {
      hide L.ScheduleLivenessTick, L.AnnounceUp;
      phase := L.Running;
      graceUntil := Some(env.now + L.LIVENESS_GRACE);
      ScheduleLivenessTick();
      AnnounceUp();
    }

    method AnnounceUp()
      modifies this`log, this`everConnected, this`outage
      ensures Model() == L.AnnounceUp(old(Model()))
    {
      if !everConnected {
        log := log + [L.Told(L.Connected)];
      } else if outage {
        log := log + [L.Told(L.Restored)];
      }
      everConnected := true;
      outage := false;
    }

    method AnnounceTrouble(failure: Failure)
      modifies this`log, this`outage
      ensures Model() == L.AnnounceTrouble(old(Model()), failure)
    {
      match failure
      case Terminal(reason) =>
        outage := true;
        log := log + [L.Told(L.Blocked(reason))];
      case Transient =>
        if !outage {
          outage := true;
          log := log + [L.Told(L.TunnelReconnecting)];
        }
      case Locked =>
    }

    // ---- Recovery ----

    method Handle(update: L.PathUpdate, env: L.Env)
      modifies this
      ensures Model() == L.Handle(old(Model()), update, env)
    {
      hide L.EnterWaiting, L.BeginRecovery, Policy.PathChanged, L.Cancelled;
      var (next, decision) := policy.PathChanged(update.key, update.usable, env.now);
      policy := next;
      match decision
      case Ignore =>
      case RecheckAfter(delay) =>
        CancelJob(recheckTimer);
        var timer := After(delay, L.Recheck);
        recheckTimer := Some(timer);
      case WaitForNetwork => EnterWaiting();
      case ReconnectAfter(delay) => BeginRecovery(delay);
    }

    method BeginRecovery(delay: real)
      modifies this
      ensures Model() == L.BeginRecovery(old(Model()), delay)
    {
      hide L.AnnounceTrouble, L.CancelTimers, L.ScheduleAttempt;
      AnnounceTrouble(Transient);
      MoveTo(L.Reconnecting);
      ScheduleAttempt(1, delay);
    }

    method StopCore()
      modifies this`log
      ensures Model() == L.Do(old(Model()), L.CoreStopped)
    {
      log := log + [L.CoreStopped];
    }

    method EnterWaiting()
      modifies this
      ensures Model() == L.EnterWaiting(old(Model()))
    {
      hide L.AnnounceTrouble, L.CancelTimers;
      policy := policy.MarkWaiting();
      if phase == L.Waiting {
        return;
      }
      MoveTo(L.Waiting);
      StopCore();
      AnnounceTrouble(Transient);
    }

    method Retry(attempt: nat, e: Error)
      modifies this
      ensures Model() == L.Retry(old(Model()), attempt, e)
    {
      hide L.EnterWaiting, L.TryAgain, Classify;
      if latest.Some? && !latest.value.usable {
        EnterWaiting();
      } else {
        var classified := Classify(e);
        var missing := classified == Terminal(NoServer) && |targets.ids| > 1;
        TryAgain(attempt, if missing then Transient else classified, missing);
      }
    }

    method TryAgain(attempt: nat, failure: Failure, missing: bool)
      modifies this
      ensures Model() == L.TryAgain(old(Model()), attempt, failure, missing)
    {
      hide L.AnnounceTrouble, L.ScheduleAttempt, Delay, AfterFailure;
      if failure.Terminal? {
        sessionReady := false;
      }
      AnnounceTrouble(failure);
      RotateAfter(attempt, missing);
      ScheduleAttempt(attempt + 1, Delay(failure, attempt));
    }

    method RotateAfter(attempt: nat, missing: bool)
      modifies this`targets
      ensures Model() == old(Model()).(targets := AfterFailure(old(targets), attempt, missing))
    {
      if missing || Rotates(attempt) {
        targets := targets.Advanced();
      }
    }

    method RecheckFired(env: L.Env)
      modifies this
      ensures Model() == L.OnRecheck(old(Model()), env)
    {
      recheckTimer := None;
      if phase in {L.Running, L.Reconnecting, L.Waiting} && latest.Some? {
        Handle(latest.value, env);
      }
    }

    method RunAttempt(attempt: nat, current: nat, env: L.Env)
      modifies this
      ensures Model() == L.OnRunAttempt(old(Model()), attempt, current, env)
    {
      hide L.EnterWaiting, L.RestartInPlace, L.MadeAttempt, L.AttemptFinished;
      if phase != L.Reconnecting || current != cycle {
        return;
      }
      attemptTimer := None;
      if latest.Some? && !latest.value.usable {
        EnterWaiting();
        return;
      }
      if attempt == 1 && preparedExit == Some(targets.Current()) {
        var restarted := RestartInPlace(env);
        if restarted {
          AttemptFinished(attempt, current, None, env);
          return;
        }
      }
      MakeAttempt(attempt, current, env);
    }

    method MakeAttempt(attempt: nat, current: nat, env: L.Env)
      modifies this
      ensures Model() == L.MadeAttempt(old(Model()), attempt, current, env)
    {
      hide L.Establish, L.AttemptFinished;
      log := log + [L.CoreStopped];
      var outcome := Establish(env.establish(0), L.AttemptMade(attempt, current), current, false, env);
      if outcome.Done? {
        AttemptFinished(attempt, current, outcome.error, env);
      }
    }

    method RestartInPlace(env: L.Env) returns (restarted: bool)
      modifies this`log
      ensures (Model(), restarted) == L.RestartInPlace(old(Model()), env)
    {
      log := log + [L.CoreStopped];
      if env.fd < 0 {
        return false;
      }
      log := log + [L.CoreStarted(phase, cycle, cycle)];
      restarted := env.start.None?;
    }

    method AttemptFinished(attempt: nat, current: nat, error: Option<Error>, env: L.Env)
      modifies this
      ensures Model() == L.AttemptFinished(old(Model()), attempt, current, error, env)
    {
      if phase != L.Reconnecting || current != cycle {
        return;
      }
      if error.None? {
        CameUp(env);
      } else {
        Retry(attempt, error.value);
      }
    }

    // ---- Switching ----

    method Retarget(server: string, listed: seq<string>)
      modifies this`targets
      ensures Model() == L.Retarget(old(Model()), server, listed)
    {
      var option := if optionServer.Some? then optionServer.value else "";
      var previous := if targets.Current() == "" then option else targets.Current();
      targets := ForSwitch(server, previous, listed);
    }

    method SwitchServer(server: string, listed: seq<string>, env: L.Env)
      modifies this
      ensures Model() == L.DoSwitch(old(Model()), server, listed, env)
    {
      if server == "" {
        return;
      }
      match phase
      case Idle =>
      case Stopped =>
      case Starting => SupersedeStart(server, listed, env);
      case Running => BeginSwitch(server, listed, env);
      case Reconnecting => BeginSwitch(server, listed, env);
      case Waiting => BeginSwitch(server, listed, env);
    }

    method SupersedeStart(server: string, listed: seq<string>, env: L.Env)
      modifies this
      ensures Model() == L.SupersedeStart(old(Model()), server, listed, env)
    {
      hide L.Retarget, L.RunStartSequence;
      if pendingStart.None? {
        return;
      }
      var pending := pendingStart.value;
      Retarget(server, listed);
      cycle := cycle + 1;
      pendingStart := Some(L.Pending(cycle, pending.id));
      if blockingDone {
        RunStartSequence(cycle, env);
      }
    }

    method BeginSwitch(server: string, listed: seq<string>, env: L.Env)
      modifies this
      ensures Model() == L.BeginSwitch(old(Model()), server, listed, env)
    {
      hide L.Retarget, L.CancelTimers, L.Establish, L.SwitchFinished;
      Retarget(server, listed);
      if phase == L.Waiting {
        return;
      }
      MoveTo(L.Reconnecting);
      var current := cycle;
      var outcome := Establish(env.establish(0), L.SwitchMade(current), current, true, env);
      if outcome.Done? {
        SwitchFinished(outcome.error, current, env);
      }
    }

    method SwitchFinished(error: Option<Error>, current: nat, env: L.Env)
      modifies this
      ensures Model() == L.SwitchFinished(old(Model()), error, current, env)
    {
      if phase != L.Reconnecting || current != cycle {
        return;
      }
      if error.None? {
        CameUp(env);
      } else {
        Retry(1, error.value);
      }
    }

    // ---- Liveness ----

    method ScheduleLivenessTick()
      modifies this`jobs, this`livenessTimer
      ensures Model() == L.ScheduleLivenessTick(old(Model()))
    {
      CancelJob(livenessTimer);
      var timer := After(L.CHECK_INTERVAL, L.LivenessTick);
      livenessTimer := Some(timer);
    }

    method CheckLiveness(env: L.Env)
      modifies this
      ensures Model() == L.CheckLiveness(old(Model()), env)
    {
      if phase != L.Running || env.lastHandshake <= 0 {
        return;
      }
      if graceUntil.Some? && env.now < graceUntil.value {
        return;
      }
      if env.wallNow - env.lastHandshake as real > L.STALE_AFTER {
        BeginRecovery(0.0);
      }
    }

    method LivenessTick(env: L.Env)
      modifies this
      ensures Model() == L.OnLivenessTick(old(Model()), env)
    {
      livenessTimer := None;
      if phase != L.Running {
        return;
      }
      CheckLiveness(env);
      if phase == L.Running {
        ScheduleLivenessTick();
      }
    }

    method ArmWakeChecks()
      modifies this`jobs, this`wakeTimers
      ensures jobs == old(jobs) + [L.Job(L.WakeCheck, 17.0, true), L.Job(L.WakeCheck, 32.0, true)]
      ensures wakeTimers == [|old(jobs)|, |old(jobs)| + 1]
    {
      var first := After(17.0, L.WakeCheck);
      var second := After(32.0, L.WakeCheck);
      wakeTimers := [first, second];
    }

    method Wake(env: L.Env)
      modifies this`graceUntil, this`jobs, this`wakeTimers
      ensures Model() == L.DoWake(old(Model()), env)
    {
      hide L.CancelledAll;
      if phase != L.Running {
        return;
      }
      graceUntil := Some(env.now + L.WAKE_GRACE);
      CancelWakeTimers();
      ArmWakeChecks();
    }

    // ---- Events ----

    method PathChanged(update: L.PathUpdate, env: L.Env)
      modifies this
      ensures Model() == L.DoPath(old(Model()), update, env)
    {
      latest := Some(update);
      match phase
      case Starting =>
        if startBaseline.None? && update.usable && update.key != "" {
          startBaseline := Some(update.key);
        }
      case Running => Handle(update, env);
      case Reconnecting => Handle(update, env);
      case Waiting => Handle(update, env);
      case Idle =>
      case Stopped =>
    }

    method Fire(job: nat, env: L.Env)
      requires job < |jobs|
      modifies this
      ensures Model() == L.DoFire(old(Model()), job, env)
    {
      var work := jobs[job].work;
      CancelJob(Some(job));
      match work
      case RunAttempt(attempt, c) => RunAttempt(attempt, c, env);
      case Recheck => RecheckFired(env);
      case LivenessTick => LivenessTick(env);
      case WakeCheck => CheckLiveness(env);
      case Watchdog(apply) => WatchdogFired(apply, env);
    }

    /** One queue event, which keeps what every run keeps. */
    method Handled(event: L.Event, env: L.Env)
      requires L.Enabled(Model(), event)
      modifies this
      ensures Model() == L.Next(old(Model()), event, env)
      ensures R.Inv(old(Model())) ==> R.Inv(Model())
    {
      Dispatch(event, env);
      hide R.Inv, L.Next;
      if R.Inv(old(Model())) {
        R.NextKeeps(old(Model()), event, env);
      }
    }

    method Dispatch(event: L.Event, env: L.Env)
      requires L.Enabled(Model(), event)
      modifies this
      ensures Model() == L.Next(old(Model()), event, env)
    {
      match event
      case StartTunnel(option) => Begin(option, env);
      case StopTunnel => Stop();
      case PathChanged(update) => PathChanged(update, env);
      case SwitchServer(server, candidates) => SwitchServer(server, candidates, env);
      case WokeUp => Wake(env);
      case Fire(job) => Fire(job, env);
      case Callback(apply, error) => Callback(apply, error, env);
    }
  }
}
