/** That a start and a recovery go forward: every answer brings a start nearer to its completion, and
    the failed attempts of a recovery go round the candidates. */
module LifecycleProgress {
  import opened Support
  import opened Reconnect
  import opened Lifecycle
  import opened LifecycleRuns

  // ---- The starts issued stay issued ----

  lemma CancelTimersIssues(l: Lifecycle)
    ensures CancelTimers(l).issued == l.issued
  {
    hide CancelledAll, Cancelled;
  }

  lemma EnterWaitingIssues(l: Lifecycle)
    ensures EnterWaiting(l).issued == l.issued
  {
    hide CancelTimers;
    CancelTimersIssues(l.(policy := l.policy.MarkWaiting(), phase := Waiting, cycle := l.cycle + 1));
  }

  lemma BeginRecoveryIssues(l: Lifecycle, after: real)
    ensures BeginRecovery(l, after).issued == l.issued
  {
    hide CancelTimers;
    var t := AnnounceTrouble(l, Transient);
    CancelTimersIssues(t.(phase := Reconnecting, cycle := t.cycle + 1));
  }

  lemma HandleIssues(l: Lifecycle, u: PathUpdate, env: Env)
    ensures Handle(l, u, env).issued == l.issued
  {
    hide EnterWaiting, BeginRecovery, Cancelled;
    var (p, d) := l.policy.PathChanged(u.key, u.usable, env.now);
    EnterWaitingIssues(l.(policy := p));
    if d.ReconnectAfter? {
      BeginRecoveryIssues(l.(policy := p), d.delay);
    }
  }

  lemma RetryIssues(l: Lifecycle, attempt: nat, e: Error)
    ensures Retry(l, attempt, e).issued == l.issued
  {
    hide EnterWaiting, Delay, AfterFailure, Missing, RetryFailure, PathDown;
    EnterWaitingIssues(l);
  }

  lemma GoOnIssues(l: Lifecycle, error: Option<Error>, env: Env)
    ensures GoOn(l, error, env).issued == l.issued
  {
    hide Handle, Retry;
    if error.Some? {
      RetryIssues(l.(phase := Reconnecting), 1, error.value);
    }
    var up := if error.Some? then Retry(l.(phase := Reconnecting), 1, error.value) else CameUp(l, env);
    if up.latest.Some? {
      HandleIssues(up, up.latest.value, env);
    }
  }

  /** The start is over. */
  ghost predicate Over(l: Lifecycle, m: Lifecycle) {
    m.phase != Starting && m.issued == l.issued
  }

  lemma FinishStartEndsIt(l: Lifecycle, error: Option<Error>, env: Env)
    requires AtStart(l) && (error.None? ==> l.blockingDone)
    ensures Over(l, FinishStart(l, error, l.cycle, env))
  {
    FinishStartKeeps(l, error, env);
    hide Quiet, Inv, GoOn, CancelledAll, Cancelled;
    var done := l.(pending := None);
    GoOnIssues(Succeeded(done, l.pending.value), error, env);
  }

  // ---- The walk along the candidates ----

  /** Ids once known are kept. */
  ghost predicate KeepsIds(l: Lifecycle, m: Lifecycle) {
    l.sessionReady || l.targets.ids != [] ==> m.targets.ids == l.targets.ids
  }

  ghost predicate InFlightFrom(l: Lifecycle, j: nat, index: nat) {
    && AwaitsOnly(l, j) && l.applies[j].cont.CandidateTried?
    && index <= l.applies[j].cont.index
    && (l.applies[j].cont.index == index || l.applies[j].cont.index < |l.targets.ids|)
  }

  /** The same start is still on its way, with a candidate from `index` on in flight. */
  ghost predicate WalksOn(l: Lifecycle, m: Lifecycle, index: nat) {
    && m.phase == Starting && m.pending == l.pending && m.cycle == l.cycle
    && KeepsIds(l, m) && exists j: nat :: InFlightFrom(m, j, index)
  }

  lemma EnsureSessionFrame(l: Lifecycle, answer: Result<seq<string>, Error>)
    ensures var s := EnsureSession(l, answer).0;
      && s == l.(sessionReady := s.sessionReady, targets := s.targets) && KeepsIds(l, s)
      && (l.sessionReady ==> s == l) && (!s.sessionReady ==> s == l)
  {
  }

  lemma PrepareRouteFrame(l: Lifecycle, refused: Option<Error>, current: nat)
    ensures var s := PrepareRoute(l, refused, current).0; s == l.(log := s.log, preparedExit := s.preparedExit)
  {
  }

  lemma InstallFrame(l: Lifecycle, answers: Answers, cont: Cont, current: nat, env: Env)
    ensures var (s, o) := Install(l, answers, cont, current, false, env);
      && s.issued == l.issued && s.targets == l.targets && s.sessionReady == l.sessionReady
      && (o.InFlight? ==> |s.applies| == |l.applies| + 1 && s.applies[|l.applies|].cont == cont && s.applies[|l.applies|].loaded)
  {
  }

  lemma EstablishFrame(l: Lifecycle, answers: Answers, cont: Cont, current: nat, env: Env)
    ensures var (s, o) := Establish(l, answers, cont, current, false, env);
      && s.issued == l.issued && KeepsIds(l, s)
      && (l.sessionReady ==> s.sessionReady) && (!s.sessionReady ==> s.targets == l.targets)
      && (o.InFlight? ==> |s.applies| == |l.applies| + 1 && s.applies[|l.applies|].cont == cont && s.applies[|l.applies|].loaded)
  {
    hide EnsureSession, PrepareRoute, Install;
    EnsureSessionFrame(l, answers.session);
    var s := EnsureSession(l, answers.session).0;
    PrepareRouteFrame(s, answers.prepare, current);
    InstallFrame(PrepareRoute(s, answers.prepare, current).0, answers, cont, current, env);
  }

  lemma EstablishedInFlight(l: Lifecycle, index: nat, env: Env)
    requires AtStart(l) && l.blockingDone
    ensures var cont := CandidateTried(index, l.cycle);
      var (s, o) := Establish(l, env.establish(index), cont, l.cycle, false, env);
      && s.issued == l.issued && KeepsIds(l, s) && s.pending == l.pending && s.cycle == l.cycle
      && (l.sessionReady ==> s.sessionReady) && (!s.sessionReady ==> s.targets == l.targets)
      && (o.InFlight? ==> s.phase == Starting && InFlightFrom(s, |l.applies|, index))
      && (o.Done? ==> AtStart(s) && s.blockingDone)
  {
    hide Record, TimerRefs, Watchdogs, OnlyAttempt, Establish;
    var cont := CandidateTried(index, l.cycle);
    EstablishKeeps(l, env.establish(index), cont, false, env);
    EstablishFrame(l, env.establish(index), cont, l.cycle, env);
    var (s, o) := Establish(l, env.establish(index), cont, l.cycle, false, env);
    if o.InFlight? {
      var i :| AwaitsOnly(s, i);
      assert i == |l.applies| by {
        assert !Older(s.applies[|l.applies|].cont, s.cycle, s.session);
      }
    }
  }

  lemma TryCandidateWalks(l: Lifecycle, index: nat, env: Env)
    requires AtStart(l) && l.blockingDone
    ensures var m := TryCandidate(l, index, l.cycle, env); Over(l, m) || WalksOn(l, m, index)
    decreases !l.sessionReady, CandidatesLeft(l, index), 1
  {
    hide AtStart, InFlightFrom, CandidateFinished, Establish, At;
    var t := l.(targets := At(l.targets.ids, index));
    SameStart(l, t);
    AtKeepsIds(l.targets.ids, index);
    EstablishedInFlight(t, index, env);
    var (s, o) := Establish(t, env.establish(index), CandidateTried(index, l.cycle), l.cycle, false, env);
    if o.Done? {
      CandidateFinishedWalks(s, index, o.error, env);
      var m := CandidateFinished(s, index, o.error, l.cycle, env);
      if !Over(s, m) {
        FromLater(l, s, m, index);
      }
    }
  }

  lemma FromLater(l: Lifecycle, s: Lifecycle, m: Lifecycle, index: nat)
    requires s.pending == l.pending && s.cycle == l.cycle && KeepsIds(l, s) && (l.sessionReady ==> s.sessionReady)
    requires WalksOn(s, m, index + 1) && index + 1 < |s.targets.ids|
    ensures WalksOn(l, m, index)
  {
    hide AwaitsOnly;
    var j: nat :| InFlightFrom(m, j, index + 1);
    assert InFlightFrom(m, j, index);
  }

  lemma AtKeepsIds(ids: seq<string>, index: int)
    ensures At(ids, index).ids == ids
  {
  }

  lemma SameStart(l: Lifecycle, t: Lifecycle)
    requires AtStart(l) && t == l.(targets := t.targets)
    ensures AtStart(t)
  {
    hide Record, TimerRefs, Watchdogs, OnlyAttempt, OlderBut;
  }

  lemma CandidateFinishedWalks(l: Lifecycle, index: nat, error: Option<Error>, env: Env)
    requires AtStart(l) && l.blockingDone
    ensures var m := CandidateFinished(l, index, error, l.cycle, env);
      Over(l, m) || (WalksOn(l, m, index + 1) && index + 1 < |l.targets.ids|)
    decreases !l.sessionReady, CandidatesLeft(l, index), 0
  {
    assert l.pending.Some? && l.pending.value.cycle == l.cycle;
    hide AtStart, InFlightFrom, TryCandidate, FinishStart;
    if error.Some? && index + 1 < |l.targets.ids| && WorthNextCandidate(error.value) {
      TryCandidateWalks(l, index + 1, env);
    } else {
      FinishStartEndsIt(l, error, env);
    }
  }

  lemma RunStartSequenceWalks(l: Lifecycle, env: Env)
    requires AtStart(l) && l.blockingDone
    ensures var m := RunStartSequence(l, l.cycle, env); Over(l, m) || WalksOn(l, m, 0)
  {
    var (s, e) := EnsureSession(l, env.session);
    EnsureSessionFrame(l, env.session);
    assert AtStart(s) by { EnsureSessionKeeps(l, env.session); hide Record, TimerRefs, Watchdogs, OnlyAttempt, OlderBut; }
    hide AtStart, InFlightFrom, TryCandidate, FinishStart, EnsureSession;
    if e.Some? {
      FinishStartEndsIt(s, e, env);
    } else {
      TryCandidateWalks(s, 0, env);
    }
  }

  /** Where an apply leads the start: past `index` if it was the candidate at `index`, else to the first. */
  function NextFrom(cont: Cont): nat {
    if cont.CandidateTried? then cont.index + 1 else 0
  }

  lemma AwaitedWalks(l: Lifecycle, i: nat, error: Option<Error>, env: Env)
    requires Inv(l) && l.phase == Starting && AwaitsOnly(l, i)
    ensures var m := OnCallback(l, i, error, env);
      Over(l, m) || (WalksOn(l, m, NextFrom(l.applies[i].cont))
        && (l.applies[i].cont.CandidateTried? ==> l.applies[i].cont.index + 1 < |l.targets.ids|))
  {
    AwaitedFires(l, i, error, env);
    var c := Unloaded(l.(jobs := Cancelled(l.jobs, Some(l.applies[i].watchdog))), i, error, env.now);
    var passed := ProceedingPastTimeout(error);
    assert AtStart(c) by { hide Record, TimerRefs, Watchdogs, OnlyAttempt, OlderBut, AwaitsOnly; }
    match l.applies[i].cont
    case BlockingApplied(session) =>
      if passed.Some? {
        hide AtStart, Quiet, InFlightFrom, FinishStart, Inv, OlderBut;
        FinishStartEndsIt(c, passed, env);
      } else {
        var d := c.(blockingDone := true);
        assert AtStart(d) by { hide Record, TimerRefs, Watchdogs, OnlyAttempt, OlderBut, AwaitsOnly; }
        hide AtStart, Quiet, InFlightFrom, RunStartSequence, Inv, OlderBut;
        RunStartSequenceWalks(d, env);
      }
    case CandidateTried(index, cycle) =>
      StartCoreKeeps(c, passed, cycle, env.fd, env.start);
      var (s, e) := StartCore(c, passed, cycle, env.fd, env.start);
      assert AtStart(s) by { hide Record, TimerRefs, Watchdogs, OnlyAttempt, OlderBut, AwaitsOnly; }
      hide AtStart, Quiet, InFlightFrom, CandidateFinished, StartCore, Inv, OlderBut;
      CandidateFinishedWalks(s, index, e, env);
  }

  // ---- A start completes ----

  /** The awaited apply `j` is for a candidate of the current cycle past the one `i` was for, if any. */
  ghost predicate FurtherOn(l: Lifecycle, i: nat, m: Lifecycle, j: nat)
    requires i < |l.applies|
  {
    && AwaitsApply(m, j) && m.applies[j].cont.CandidateTried? && m.applies[j].cont.cycle == m.cycle
    && (l.applies[i].cont.CandidateTried? ==>
         l.applies[i].cont.index < m.applies[j].cont.index < |m.targets.ids| && m.targets.ids == l.targets.ids)
  }

  /** The answer a pending start waits for, or its watchdog, completes the start; or the same start goes
      on, in the same cycle, to its candidates, strictly further along them than before. */
  lemma StartAnswerMovesOn(turns: seq<Turn>, l: Lifecycle, i: nat, error: Option<Error>, env: Env)
    requires Runs(Fresh, turns, l) && l.phase == Starting && AwaitsApply(l, i)
    ensures l.pending.Some?
    ensures var m := OnCallback(l, i, error, env);
      if m.phase != Starting then Completions(m.log, l.pending.value.id) == 1
      else m.pending == l.pending && m.cycle == l.cycle && exists j: nat :: FurtherOn(l, i, m, j)
  {
    FreshInv();
    RunsKeepInv(Fresh, turns, l);
    StartAnswered(l, i, error, env);
  }

  lemma StartAnswered(l: Lifecycle, i: nat, error: Option<Error>, env: Env)
    requires Inv(l) && l.phase == Starting && AwaitsApply(l, i)
    ensures l.pending.Some?
    ensures var m := OnCallback(l, i, error, env);
      if m.phase != Starting then Completions(m.log, l.pending.value.id) == 1
      else m.pending == l.pending && m.cycle == l.cycle && exists j: nat :: FurtherOn(l, i, m, j)
  {
    hide Sound, OnCallback, Flight, AwaitsOnly;
    AwaitsApplyIsAwaitsOnly(l, i);
    AwaitedWalks(l, i, error, env);
    CallbackKeeps(l, i, error, env);
    var m := OnCallback(l, i, error, env);
    if m.phase != Starting {
      OverIsCompleted(l, m);
    } else {
      var j: nat :| InFlightFrom(m, j, NextFrom(l.applies[i].cont));
      AwaitsApplyIsAwaitsOnly(m, j);
      assert m.applies[j].cont.cycle == m.cycle by { hide *; AwaitedCycle(m, j); }
      assert FurtherOn(l, i, m, j);
    }
  }

  lemma AwaitedCycle(l: Lifecycle, j: nat)
    requires l.phase == Starting && AwaitsApply(l, j) && l.applies[j].cont.CandidateTried?
    ensures l.applies[j].cont.cycle == l.cycle
  {
  }

  lemma OverIsCompleted(l: Lifecycle, m: Lifecycle)
    requires Inv(l) && Inv(m) && l.phase == Starting && Over(l, m)
    ensures l.pending.Some? && Completions(m.log, l.pending.value.id) == 1
  {
    hide TellsTruth, EverUp, InOutage, InContext, TimerRefs, Watchdogs, OnlyAttempt, OlderBut, Completions;
  }

  /** A run of nothing but the answers a pending start waits for, one after another. */
  ghost predicate AnsweredRun(l: Lifecycle, turns: seq<Turn>, m: Lifecycle)
    decreases |turns|
  {
    if turns == [] then m == l
    else
      var e := turns[0].event;
      && l.phase == Starting && e.Callback? && AwaitsApply(l, e.apply)
      && AnsweredRun(OnCallback(l, e.apply, e.error, turns[0].env), turns[1..], m)
  }

  /** How many candidates are left to try from the one in flight on. */
  function Ahead(l: Lifecycle, i: nat): nat
    requires i < |l.applies|
  {
    if l.applies[i].cont.CandidateTried? && l.applies[i].cont.index < |l.targets.ids|
    then |l.targets.ids| - l.applies[i].cont.index else 1
  }

  lemma {:induction false} AnswersRunOut(l: Lifecycle, i: nat, turns: seq<Turn>, m: Lifecycle)
    requires Inv(l) && l.phase == Starting && AwaitsApply(l, i) && l.applies[i].cont.CandidateTried?
    requires AnsweredRun(l, turns, m)
    ensures l.pending.Some? && |turns| <= Ahead(l, i)
    ensures m.phase == Starting ==> |turns| < Ahead(l, i)
    ensures m.phase != Starting ==> Completions(m.log, l.pending.value.id) == 1
    decreases |turns|
  {
    assert l.pending.Some? by { hide Sound, Flight; }
    hide Inv, OnCallback;
    if turns != [] {
      var e := turns[0].event;
      AwaitsApplyIsAwaitsOnly(l, i);
      StartAnswered(l, i, e.error, turns[0].env);
      CallbackKeeps(l, i, e.error, turns[0].env);
      var n := OnCallback(l, i, e.error, turns[0].env);
      if n.phase == Starting {
        var j: nat :| FurtherOn(l, i, n, j);
        AnswersRunOut(n, j, turns[1..], m);
      }
    }
  }

  /** A start completes after finitely many of the answers it waits for: one for the blocking routes, and
      no more than one a candidate. In a starting phase such an answer is always to come, from the system
      or from its watchdog. */
  lemma StartCompletesAfterItsAnswers(before: seq<Turn>, l: Lifecycle, turns: seq<Turn>, m: Lifecycle)
    requires Runs(Fresh, before, l) && l.phase == Starting && AnsweredRun(l, turns, m) && turns != []
    ensures l.pending.Some?
    ensures var n := OnCallback(l, turns[0].event.apply, turns[0].event.error, turns[0].env);
      var most := if n.targets.ids == [] then 1 else |n.targets.ids|;
      |turns| <= 1 + most && (m.phase == Starting ==> |turns| <= most)
    ensures if m.phase != Starting then Completions(m.log, l.pending.value.id) == 1 else exists i :: AwaitsApply(m, i)
  {
    hide OnCallback, Inv;
    FreshInv();
    RunsKeepInv(Fresh, before, l);
    var e := turns[0].event;
    StartAnswered(l, e.apply, e.error, turns[0].env);
    CallbackKeeps(l, e.apply, e.error, turns[0].env);
    var n := OnCallback(l, e.apply, e.error, turns[0].env);
    AnsweredKeepsInv(n, turns[1..], m);
    if m.phase == Starting {
      StartIsAwaited(m);
    }
    if n.phase == Starting {
      var j: nat :| FurtherOn(l, e.apply, n, j);
      AnswersRunOut(n, j, turns[1..], m);
    }
  }

  lemma {:induction false} AnsweredKeepsInv(l: Lifecycle, turns: seq<Turn>, m: Lifecycle)
    requires Inv(l) && AnsweredRun(l, turns, m)
    ensures Inv(m)
    decreases |turns|
  {
    if turns != [] {
      var e := turns[0].event;
      CallbackKeeps(l, e.apply, e.error, turns[0].env);
      hide Inv, OnCallback;
      AnsweredKeepsInv(OnCallback(l, e.apply, e.error, turns[0].env), turns[1..], m);
    }
  }

  lemma StartIsAwaited(l: Lifecycle)
    requires Inv(l) && l.phase == Starting
    ensures exists i :: AwaitsApply(l, i)
  {
    hide Sound, AwaitsOnly;
    var i :| AwaitsOnly(l, i);
    AwaitsApplyIsAwaitsOnly(l, i);
  }

  // ---- A recovery goes round the candidates ----

  function AttemptOf(cont: Cont): nat {
    if cont.AttemptMade? then cont.attempt else 1
  }

  /** The recovery is on attempt `a`: armed for it, or awaiting the settings it applied. */
  ghost predicate OnAttempt(l: Lifecycle, a: nat) {
    if l.attemptTimer.Some? then
      l.attemptTimer.value < |l.jobs| && l.jobs[l.attemptTimer.value].work.RunAttempt? && l.jobs[l.attemptTimer.value].work.attempt == a
    else exists i: nat :: AwaitsOnly(l, i) && AttemptOf(l.applies[i].cont) == a
  }

  /** The core was asked to prepare the server the recovery is on, in this cycle. */
  ghost predicate AskedFor(log: seq<Effect>, server: string, cycle: nat) {
    Prepared(server, Reconnecting, cycle, cycle) in log
  }

  /** An attempt awaiting its settings has had its server prepared. */
  ghost predicate Asked(l: Lifecycle) {
    l.attemptTimer.None? ==> AskedFor(l.log, l.targets.Current(), l.cycle)
  }

  /** Still on the same attempt. */
  ghost predicate SameAttempt(l: Lifecycle, m: Lifecycle, a: nat) {
    OnAttempt(m, a) && m.targets == l.targets && Asked(m) && l.log <= m.log
  }

  /** An attempt made now would have no session, and be given none. */
  predicate RefusedNow(l: Lifecycle, env: Env) {
    !l.sessionReady && env.establish(0).session.Err?
  }

  /** The attempt failed: the next one is armed, on the server a failure moves to. */
  ghost predicate NextAttempt(l: Lifecycle, m: Lifecycle, a: nat, refused: bool) {
    && OnAttempt(m, a + 1) && Asked(m) && l.log <= m.log
    && (exists missing :: m.targets == AfterFailure(l.targets, a, missing))
    && (AskedFor(m.log, l.targets.Current(), l.cycle) || refused)
  }

  /** Still in the recovery's cycle. */
  ghost predicate SameCycle(l: Lifecycle, m: Lifecycle) {
    m.phase == Reconnecting && m.cycle == l.cycle
  }

  lemma TryAgainNext(l: Lifecycle, attempt: nat, failure: Failure, missing: bool)
    ensures var m := TryAgain(l, attempt, failure, missing);
      && l.log <= m.log && m.attemptTimer.Some? && OnAttempt(m, attempt + 1)
      && m.targets == AfterFailure(l.targets, attempt, missing)
  {
    hide AfterFailure, Delay;
  }

  /** What a failed attempt leaves: a wait for the network, or the next attempt armed. */
  lemma FailedNext(l: Lifecycle, m: Lifecycle, attempt: nat, error: Option<Error>, env: Env)
    requires l.phase == Reconnecting && m == AttemptFinished(l, attempt, l.cycle, error, env) && SameCycle(l, m)
    ensures l.log <= m.log && m.attemptTimer.Some? && OnAttempt(m, attempt + 1)
    ensures exists missing :: m.targets == AfterFailure(l.targets, attempt, missing)
  {
    hide EnterWaiting, TryAgain, CameUp, RetryFailure, Missing;
    EntersWaiting(l);
    CameUpRuns(l, env);
    if error.Some? {
      TryAgainNext(l, attempt, RetryFailure(l, error.value), Missing(l, error.value));
    }
  }

  lemma CameUpRuns(l: Lifecycle, env: Env)
    ensures CameUp(l, env).phase == Running
  {
    hide Cancelled;
  }

  lemma AskedLasts(log: seq<Effect>, more: seq<Effect>, server: string, cycle: nat)
    requires AskedFor(log, server, cycle) && log <= more
    ensures AskedFor(more, server, cycle)
  {
  }

  /** Establishing for a recovery that knows its servers: prepared, unless the session was refused. */
  lemma EstablishAsks(l: Lifecycle, answers: Answers, cont: Cont, env: Env)
    requires l.phase == Reconnecting && l.targets.ids != []
    ensures var s := Establish(l, answers, cont, l.cycle, false, env).0;
      && l.log <= s.log && s.targets == l.targets && s.phase == l.phase && s.cycle == l.cycle
      && (AskedFor(s.log, l.targets.Current(), l.cycle) || (!l.sessionReady && answers.session.Err?))
    ensures Establish(l, answers, cont, l.cycle, false, env).1.InFlight? ==>
      AskedFor(Establish(l, answers, cont, l.cycle, false, env).0.log, l.targets.Current(), l.cycle)
  {
    hide EnsureSession, Install;
    KnownSession(l, answers.session);
    EstablishLogs(l, answers, cont, l.cycle, false, env);
    var s := EnsureSession(l, answers.session).0;
    var got := PrepareRoute(s, answers.prepare, l.cycle).0;
    assert got.log[|s.log|] == Prepared(l.targets.Current(), Reconnecting, l.cycle, l.cycle);
    InstallKeeps(got, answers, cont, l.cycle, false, env);
    AskedLasts(got.log, Install(got, answers, cont, l.cycle, false, env).0.log, l.targets.Current(), l.cycle);
  }

  lemma KnownSession(l: Lifecycle, answer: Result<seq<string>, Error>)
    requires l.targets.ids != []
    ensures var (s, e) := EnsureSession(l, answer);
      s == l.(sessionReady := s.sessionReady) && (e.Some? ==> !l.sessionReady && answer.Err?)
  {
  }

  lemma StartCoreFrame(l: Lifecycle, settingsError: Option<Error>, current: nat, fd: int, start: Option<Error>)
    ensures var s := StartCore(l, settingsError, current, fd, start).0; s == l.(log := s.log) && l.log <= s.log
  {
  }

  lemma ApplySettingsFrame(l: Lifecycle, fingerprint: Fingerprint, cont: Cont, env: Env)
    ensures var s := ApplySettings(l, fingerprint, cont, env);
      s.log == l.log && s.targets == l.targets && s.phase == l.phase && s.cycle == l.cycle
  {
  }

  lemma InstallKeeps(l: Lifecycle, answers: Answers, cont: Cont, current: nat, switching: bool, env: Env)
    ensures var s := Install(l, answers, cont, current, switching, env).0;
      l.log <= s.log && s.targets == l.targets && s.phase == l.phase && s.cycle == l.cycle
  {
    hide StartCore, ApplySettings;
    var cut := if switching then Do(l, CoreStoppedForSwitch) else l;
    StartCoreFrame(cut, None, current, answers.fd, answers.start);
    if answers.settings.Ok? {
      ApplySettingsFrame(cut, answers.settings.value, cont, env);
    }
  }

  lemma RestartFrame(l: Lifecycle, env: Env)
    ensures var s := RestartInPlace(l, env).0; s == l.(log := s.log)
  {
  }

  /** An attempt made: its settings are awaited, or it failed at once. */
  lemma AttemptMadeNext(l: Lifecycle, a: nat, env: Env)
    requires Quiet(l) && Afloat(l) && !l.policy.waiting && l.phase == Reconnecting && l.targets.ids != []
    ensures var (q, o) := Establish(l, env.establish(0), AttemptMade(a, l.cycle), l.cycle, false, env);
      var m := if o.InFlight? then q else AttemptFinished(q, a, l.cycle, o.error, env);
      SameCycle(l, m) ==> SameAttempt(l, m, a) || NextAttempt(l, m, a, RefusedNow(l, env))
  {
    var cont := AttemptMade(a, l.cycle);
    var (q, o) := Establish(l, env.establish(0), cont, l.cycle, false, env);
    EstablishKeeps(l, env.establish(0), cont, false, env);
    EstablishFrame(l, env.establish(0), cont, l.cycle, env);
    EstablishAsks(l, env.establish(0), cont, env);
    hide Quiet, Sound, OlderBut, Establish, AttemptFinished, AskedFor;
    if o.InFlight? {
      var i: nat :| AwaitsOnly(q, i);
      NewApplyIsAwaited(q, i, |l.applies|);
      assert OnAttempt(q, a);
    } else {
      var m := AttemptFinished(q, a, l.cycle, o.error, env);
      if SameCycle(l, m) {
        FailedNext(q, m, a, o.error, env);
        hide OnAttempt;
        if !RefusedNow(l, env) {
          AskedLasts(q.log, m.log, l.targets.Current(), l.cycle);
        }
      }
    }
  }

  lemma NewApplyIsAwaited(l: Lifecycle, i: nat, j: nat)
    requires AwaitsOnly(l, i) && j < |l.applies| && l.applies[j].loaded
    requires l.applies[j].cont.AttemptMade? && l.applies[j].cont.cycle == l.cycle
    ensures i == j
  {
    assert !Older(l.applies[j].cont, l.cycle, l.session);
  }

  lemma FiredNext(l: Lifecycle, a: nat, env: Env)
    requires Quiet(l.(attemptTimer := None)) && Afloat(l) && !l.policy.waiting && l.phase == Reconnecting && l.targets.ids != []
    ensures var m := OnRunAttempt(l, a, l.cycle, env);
      SameCycle(l, m) ==> SameAttempt(l, m, a) || NextAttempt(l, m, a, RefusedNow(l, env))
  {
    hide Quiet, EnterWaiting, RestartInPlace, Establish, AttemptFinished, SameAttempt, NextAttempt;
    var r := l.(attemptTimer := None);
    EntersWaiting(r);
    if !PathDown(r) {
      var inPlace := a == 1 && r.preparedExit == Some(r.targets.Current());
      RestartKeeps(r, env);
      RestartFrame(r, env);
      RestartLogs(r, env);
      var (s, restarted) := if inPlace then RestartInPlace(r, env) else (r, false);
      if restarted {
        assert AttemptFinished(s, a, l.cycle, None, env).phase == Running by { CameUpRuns(s, env); AttemptUp(s, a, env); }
      } else {
        DoQuiet(s, CoreStopped);
        var d := Do(s, CoreStopped);
        AttemptMadeNext(d, a, env);
        var (q, o) := Establish(d, env.establish(0), AttemptMade(a, d.cycle), d.cycle, false, env);
        LongerRecord(l, d, if o.InFlight? then q else AttemptFinished(q, a, d.cycle, o.error, env), a, RefusedNow(l, env));
      }
    }
  }

  lemma AttemptUp(l: Lifecycle, a: nat, env: Env)
    requires l.phase == Reconnecting
    ensures AttemptFinished(l, a, l.cycle, None, env) == CameUp(l, env)
  {
  }

  /** What follows from the start of an attempt follows from before it. */
  lemma LongerRecord(l: Lifecycle, d: Lifecycle, m: Lifecycle, a: nat, refused: bool)
    requires l.log <= d.log && d.targets == l.targets && d.cycle == l.cycle
    ensures SameAttempt(d, m, a) ==> SameAttempt(l, m, a)
    ensures NextAttempt(d, m, a, refused) ==> NextAttempt(l, m, a, refused)
  {
    hide OnAttempt, AfterFailure;
  }

  /** What the awaited answer comes to: the end of the attempt it was for. */
  lemma AnswerEnds(l: Lifecycle, i: nat, error: Option<Error>, env: Env) returns (s: Lifecycle, e: Option<Error>)
    requires Inv(l) && l.phase == Reconnecting && AwaitsOnly(l, i)
    ensures OnCallback(l, i, error, env) == AttemptFinished(s, AttemptOf(l.applies[i].cont), l.cycle, e, env)
    ensures l.log <= s.log && s.phase == l.phase && s.cycle == l.cycle && s.targets == l.targets
  {
    AwaitedFires(l, i, error, env);
    var c := Unloaded(l.(jobs := Cancelled(l.jobs, Some(l.applies[i].watchdog))), i, error, env.now);
    var passed := ProceedingPastTimeout(error);
    StartCoreKeeps(c, passed, l.cycle, env.fd, env.start);
    StartCoreLogs(c, passed, l.cycle, env.fd, env.start);
    var ran := StartCore(c, passed, l.cycle, env.fd, env.start);
    s, e := ran.0, ran.1;
    assert l.applies[i].cont.AttemptMade? || l.applies[i].cont.SwitchMade? by { hide Inv, OlderBut; }
    hide Quiet, Inv, OlderBut, StartCore, AttemptFinished, SwitchFinished;
    SwitchIsFirst(s, e, env);
  }

  lemma SwitchIsFirst(l: Lifecycle, error: Option<Error>, env: Env)
    ensures SwitchFinished(l, error, l.cycle, env) == AttemptFinished(l, 1, l.cycle, error, env)
  {
    hide Retry, CameUp;
  }

  /** The awaited answer fails the attempt it was for, or ends the recovery. */
  lemma AnsweredNext(l: Lifecycle, i: nat, a: nat, error: Option<Error>, env: Env)
    requires Inv(l) && l.phase == Reconnecting && AwaitsOnly(l, i) && OnAttempt(l, a) && Asked(l)
    ensures var m := OnCallback(l, i, error, env); SameCycle(l, m) ==> NextAttempt(l, m, a, false)
  {
    AwaitedAttempt(l, i, a);
    hide Inv, OnAttempt, AskedFor, AwaitsOnly, OnCallback, AttemptFinished;
    var s, e := AnswerEnds(l, i, error, env);
    var m := OnCallback(l, i, error, env);
    if SameCycle(l, m) {
      FailedNext(s, m, a, e, env);
      AskedLasts(l.log, m.log, l.targets.Current(), l.cycle);
    }
  }

  lemma AwaitedAttempt(l: Lifecycle, i: nat, a: nat)
    requires Inv(l) && l.phase == Reconnecting && AwaitsOnly(l, i) && OnAttempt(l, a)
    ensures l.attemptTimer.None? && AttemptOf(l.applies[i].cont) == a
  {
    hide Record, TimerRefs, Watchdogs, OnlyAttempt;
    assert !Older(l.applies[i].cont, l.cycle, l.session);
  }

  ghost predicate SameWork(before: seq<Job>, after: seq<Job>) {
    |before| <= |after| && forall j :: 0 <= j < |before| ==> after[j].work == before[j].work
  }

  /** Timers and paths leave an attempt as it is. */
  lemma UnmovedAttempt(l: Lifecycle, m: Lifecycle, a: nat)
    requires SameCycle(l, m) && l.phase == Reconnecting && OnAttempt(l, a) && Asked(l)
    requires m.targets == l.targets && m.log == l.log && m.attemptTimer == l.attemptTimer && SameWork(l.jobs, m.jobs)
    requires m.applies == l.applies && m.session == l.session && m.blockingDone == l.blockingDone
    ensures SameAttempt(l, m, a)
  {
    hide OlderBut, AskedFor;
    if l.attemptTimer.None? {
      var i: nat :| AwaitsOnly(l, i) && AttemptOf(l.applies[i].cont) == a;
      assert AwaitsOnly(m, i);
    }
  }

  lemma CancelledWork(jobs: seq<Job>, t: Option<nat>)
    ensures SameWork(jobs, Cancelled(jobs, t))
  {
  }

  lemma HandledNext(l: Lifecycle, a: nat, u: PathUpdate, env: Env)
    requires l.phase == Reconnecting && OnAttempt(l, a) && Asked(l)
    ensures SameCycle(l, Handle(l, u, env)) ==> SameAttempt(l, Handle(l, u, env), a)
  {
    hide OnAttempt, Asked, SameAttempt, EnterWaiting, BeginRecovery;
    var (p, d) := l.policy.PathChanged(u.key, u.usable, env.now);
    var h := l.(policy := p);
    EntersWaiting(h);
    CancelledWork(h.jobs, h.recheckTimer);
    match d
    case Ignore => UnmovedAttempt(l, h, a);
    case RecheckAfter(delay) => UnmovedAttempt(l, Handle(l, u, env), a);
    case WaitForNetwork =>
    case ReconnectAfter(delay) => RecoveryMovesCycle(h, delay);
  }

  lemma RecoveryMovesCycle(l: Lifecycle, after: real)
    ensures BeginRecovery(l, after).cycle == l.cycle + 1
  {
    hide CancelledAll, Cancelled;
  }

  lemma StaleNext(l: Lifecycle, id: nat, a: nat, error: Option<Error>, env: Env)
    requires Inv(l) && l.phase == Reconnecting && id < |l.applies| && !AwaitsOnly(l, id) && OnAttempt(l, a) && Asked(l)
    ensures SameAttempt(l, OnCallback(l, id, error, env), a)
  {
    hide Record, TimerRefs, OnlyAttempt, AskedFor;
    WatchdogIsNoAttempt(l, id);
    var c := l.(jobs := Cancelled(l.jobs, Some(l.applies[id].watchdog)));
    CancelledWork(l.jobs, Some(l.applies[id].watchdog));
    if l.applies[id].loaded {
      StaleAnswerIsInert(l, id, error, env);
      hide SettingsAnswered;
      var m := Unloaded(c, id, error, env.now);
      if l.attemptTimer.None? {
        var i: nat :| AwaitsOnly(l, i) && AttemptOf(l.applies[i].cont) == a;
        assert AwaitsOnly(m, i);
      }
    } else {
      hide SettingsAnswered, OnAttempt;
      UnmovedAttempt(l, c, a);
    }
  }

  lemma CallbackNext(l: Lifecycle, id: nat, a: nat, error: Option<Error>, env: Env)
    requires Inv(l) && l.phase == Reconnecting && id < |l.applies| && OnAttempt(l, a) && Asked(l)
    ensures var m := OnCallback(l, id, error, env);
      SameCycle(l, m) ==> SameAttempt(l, m, a) || NextAttempt(l, m, a, false)
  {
    hide Inv, OnCallback, OnAttempt, Asked, SameAttempt, NextAttempt, AwaitsOnly;
    if AwaitsOnly(l, id) {
      AnsweredNext(l, id, a, error, env);
    } else {
      StaleNext(l, id, a, error, env);
    }
  }

  lemma FireNext(l: Lifecycle, job: nat, a: nat, env: Env)
    requires Inv(l) && l.phase == Reconnecting && job < |l.jobs| && l.jobs[job].live && OnAttempt(l, a) && Asked(l) && l.targets.ids != []
    ensures var m := DoFire(l, job, env);
      SameCycle(l, m) ==> SameAttempt(l, m, a) || NextAttempt(l, m, a, RefusedNow(l, env))
  {
    var fired := l.(jobs := Cancelled(l.jobs, Some(job)));
    CancelledWork(l.jobs, Some(job));
    hide Cancelled, OnRunAttempt, Handle, SameAttempt, NextAttempt, OnCallback, OnWatchdog;
    match l.jobs[job].work
    case RunAttempt(attempt, cycle) =>
      AttemptFires(l, job);
      FiringIsHeld(l, job, a);
      FiredNext(fired, a, env);
      FromTheFired(l, fired, DoFire(l, job, env), a, RefusedNow(l, env));
    case Watchdog(apply) =>
      WatchdogIsATimeout(l, job, env);
      hide DoFire, Inv;
      CallbackNext(l, apply, a, Some(Start(SettingsTimeout)), env);
      if NextAttempt(l, DoFire(l, job, env), a, false) {
        RefusedOrNot(l, DoFire(l, job, env), a, RefusedNow(l, env));
      }
    case Recheck =>
      var r := fired.(recheckTimer := None);
      hide OnAttempt, Asked, Inv;
      UnmovedAttempt(l, r, a);
      if r.latest.Some? {
        AttemptGoesOn(l, r, a);
        HandledNext(r, a, r.latest.value, env);
        LongerSame(l, r, Handle(r, r.latest.value, env), a);
      }
    case LivenessTick =>
      hide OnAttempt, Asked, Inv;
      UnmovedAttempt(l, fired.(livenessTimer := None), a);
    case WakeCheck =>
      hide OnAttempt, Asked, Inv;
      UnmovedAttempt(l, fired, a);
  }

  lemma FiringIsHeld(l: Lifecycle, job: nat, a: nat)
    requires Inv(l) && job < |l.jobs| && l.jobs[job].live && l.jobs[job].work.RunAttempt? && OnAttempt(l, a)
    ensures l.jobs[job].work.attempt == a
  {
    hide Record, TimerRefs, Watchdogs, OlderBut;
  }

  lemma FromTheFired(l: Lifecycle, d: Lifecycle, m: Lifecycle, a: nat, refused: bool)
    requires d.log == l.log && d.targets == l.targets && d.cycle == l.cycle && d.phase == l.phase
    ensures SameAttempt(d, m, a) ==> SameAttempt(l, m, a)
    ensures NextAttempt(d, m, a, refused) ==> NextAttempt(l, m, a, refused)
  {
    LongerRecord(l, d, m, a, refused);
  }

  lemma RefusedOrNot(l: Lifecycle, m: Lifecycle, a: nat, refused: bool)
    requires NextAttempt(l, m, a, false)
    ensures NextAttempt(l, m, a, refused)
  {
  }

  lemma AttemptGoesOn(l: Lifecycle, m: Lifecycle, a: nat)
    requires SameAttempt(l, m, a)
    ensures OnAttempt(m, a) && Asked(m)
  {
  }

  lemma LongerSame(l: Lifecycle, d: Lifecycle, m: Lifecycle, a: nat)
    requires SameAttempt(l, d, a)
    ensures SameAttempt(d, m, a) ==> SameAttempt(l, m, a)
  {
    hide OnAttempt, Asked;
  }

  lemma StartLeavesRecovery(l: Lifecycle, option: Option<string>, env: Env)
    ensures DoStart(l, option, env).phase != Reconnecting
  {
    hide AbandonPendingStart, CancelTimers, GoOn, Classify;
    var r := ResetSession(l);
    var s := Do(r.(phase := Starting, optionServer := option, issued := r.issued + 1), Began(r.issued))
      .(pending := Some(Pending(r.cycle, r.issued)));
    if !env.hostAlive {
      var done := s.(pending := None);
      assert FailStart(done, Start(StartStopped), s.pending.value).phase == Idle by {
        CancelTimersLogs(done.(phase := Idle));
      }
    }
  }

  lemma EstablishCycle(l: Lifecycle, answers: Answers, cont: Cont, current: nat, switching: bool, env: Env)
    ensures Establish(l, answers, cont, current, switching, env).0.cycle == l.cycle
    ensures Establish(l, answers, cont, current, switching, env).0.phase == l.phase
  {
    hide EnsureSession, PrepareRoute, Install;
    EnsureSessionFrame(l, answers.session);
    var s := EnsureSession(l, answers.session).0;
    PrepareRouteFrame(s, answers.prepare, current);
    InstallKeeps(PrepareRoute(s, answers.prepare, current).0, answers, cont, current, switching, env);
  }

  lemma SwitchFinishedCycle(l: Lifecycle, error: Option<Error>, current: nat, env: Env)
    ensures var m := SwitchFinished(l, error, current, env); m.phase == Reconnecting ==> m.cycle == l.cycle
  {
    hide EnterWaiting, TryAgain, CameUp, RetryFailure, Missing;
    CameUpRuns(l, env);
    EntersWaiting(l);
    if error.Some? {
      TryAgainCycle(l, 1, RetryFailure(l, error.value), Missing(l, error.value));
    }
  }

  lemma TryAgainCycle(l: Lifecycle, attempt: nat, failure: Failure, missing: bool)
    ensures TryAgain(l, attempt, failure, missing).cycle == l.cycle
  {
    hide AfterFailure, Delay;
  }

  lemma SwitchMovesCycle(l: Lifecycle, server: string, listed: seq<string>, env: Env)
    requires l.phase == Reconnecting
    ensures !SameCycle(l, BeginSwitch(l, server, listed, env))
  {
    hide Retarget, CancelTimers, Establish, SwitchFinished;
    RetargetFacts(l, server, listed);
    var u := Retarget(l, server, listed).(phase := Reconnecting, cycle := l.cycle + 1);
    assert CancelTimers(u).cycle == u.cycle by { CancelTimersCycle(u); }
    var s := CancelTimers(u);
    EstablishCycle(s, env.establish(0), SwitchMade(s.cycle), s.cycle, true, env);
    var (q, o) := Establish(s, env.establish(0), SwitchMade(s.cycle), s.cycle, true, env);
    if o.Done? {
      SwitchFinishedCycle(q, o.error, s.cycle, env);
    }
  }

  lemma CancelTimersCycle(l: Lifecycle)
    ensures CancelTimers(l).cycle == l.cycle
  {
    hide CancelledAll, Cancelled;
  }

  /** Every event within a cycle of a recovery leaves the attempt as it is, or fails it and arms the next. */
  lemma EventNext(l: Lifecycle, e: Event, a: nat, env: Env)
    requires Inv(l) && l.phase == Reconnecting && Enabled(l, e) && OnAttempt(l, a) && Asked(l) && l.targets.ids != []
    ensures var m := Next(l, e, env);
      SameCycle(l, m) ==> SameAttempt(l, m, a) || NextAttempt(l, m, a, e.Fire? && RefusedNow(l, env))
  {
    hide Inv, DoStart, DoStop, BeginSwitch, DoFire, OnCallback, Handle, OnAttempt, Asked, SameAttempt, NextAttempt;
    match e
    case StartTunnel(option) => StartLeavesRecovery(l, option, env);
    case StopTunnel => StopKeeps(l);
    case PathChanged(update) =>
      var n := l.(latest := Some(update));
      UnmovedAttempt(l, n, a);
      AttemptGoesOn(l, n, a);
      HandledNext(n, a, update, env);
      LongerSame(l, n, Handle(n, update, env), a);
    case SwitchServer(server, candidates) =>
      SwitchMovesCycle(l, server, candidates, env);
      UnmovedAttempt(l, l, a);
    case WokeUp => UnmovedAttempt(l, l, a);
    case Fire(job) => FireNext(l, job, a, env);
    case Callback(apply, error) =>
      CallbackNext(l, apply, a, error, env);
  }

  /** A run within one cycle of a recovery: whatever happens, no event leaves it. */
  ghost predicate Within(l: Lifecycle, turns: seq<Turn>, m: Lifecycle)
    decreases |turns|
  {
    if turns == [] then m == l
    else
      && Enabled(l, turns[0].event)
      && var n := Next(l, turns[0].event, turns[0].env);
         SameCycle(l, n) && Within(n, turns[1..], m)
  }

  /** Along the run an attempt was made with no session to be had. */
  ghost predicate SessionRefused(l: Lifecycle, turns: seq<Turn>)
    decreases |turns|
  {
    turns != [] && Enabled(l, turns[0].event) &&
    ((turns[0].event.Fire? && RefusedNow(l, turns[0].env)) || SessionRefused(Next(l, turns[0].event, turns[0].env), turns[1..]))
  }

  /** What the failures of the attempts `a` to `b` made of the candidates, with every server asked for. */
  ghost predicate WentRound(l: Lifecycle, m: Lifecycle, a: nat, b: nat, missing: seq<bool>, refused: bool) {
    && a <= b && |missing| == b - a && l.log <= m.log
    && m.targets == TargetAt(l.targets, a, missing, b - a)
    && (!refused ==> forall k :: 0 <= k < b - a ==> AskedFor(m.log, TargetAt(l.targets, a, missing, k).Current(), l.cycle))
  }

  lemma {:induction false} TargetAfter(c: Candidates, a: nat, first: bool, missing: seq<bool>, k: nat)
    requires k <= |missing|
    ensures TargetAt(c, a, [first] + missing, k + 1) == TargetAt(AfterFailure(c, a, first), a + 1, missing, k)
  {
    hide AfterFailure;
    if k == 0 {
      assert TargetAt(c, a, [first] + missing, 0) == c;
    } else {
      TargetAfter(c, a, first, missing, k - 1);
    }
  }

  lemma WentNowhere(l: Lifecycle, a: nat, refused: bool)
    ensures WentRound(l, l, a, a, [], refused)
  {
  }

  lemma WentOn(l: Lifecycle, n: Lifecycle, m: Lifecycle, a: nat, b: nat, missing: seq<bool>, refused: bool)
    requires SameAttempt(l, n, a) && n.cycle == l.cycle && WentRound(n, m, a, b, missing, refused)
    ensures WentRound(l, m, a, b, missing, refused)
  {
    hide TargetAt, AskedFor;
  }

  lemma WentFurther(l: Lifecycle, n: Lifecycle, m: Lifecycle, a: nat, b: nat, missing: seq<bool>, refused: bool, more: bool) returns (all: seq<bool>)
    requires NextAttempt(l, n, a, refused) && n.cycle == l.cycle && WentRound(n, m, a + 1, b, missing, more)
    ensures WentRound(l, m, a, b, all, refused || more)
  {
    var first :| n.targets == AfterFailure(l.targets, a, first);
    all := [first] + missing;
    hide AfterFailure, OnAttempt, Asked, AskedFor;
    forall k: nat | 0 < k <= |all| ensures TargetAt(l.targets, a, all, k) == TargetAt(n.targets, a + 1, missing, k - 1) {
      TargetAfter(l.targets, a, first, missing, k - 1);
    }
    assert TargetAt(l.targets, a, all, 0) == l.targets;
    if !refused && !more {
      AskedLasts(n.log, m.log, l.targets.Current(), l.cycle);
      forall k | 0 <= k < b - a ensures AskedFor(m.log, TargetAt(l.targets, a, all, k).Current(), l.cycle) {
        if k > 0 {
          assert TargetAt(l.targets, a, all, k) == TargetAt(n.targets, a + 1, missing, k - 1);
        }
      }
    }
  }

  /** Over any run within one cycle of a recovery, whatever else happens in it, the failures of its
      attempts move the candidates on as TargetAt says, each attempt's server having been asked for. */
  lemma {:induction false} FailuresGoRound(l: Lifecycle, turns: seq<Turn>, m: Lifecycle, a: nat) returns (b: nat, missing: seq<bool>)
    requires Inv(l) && l.phase == Reconnecting && OnAttempt(l, a) && Asked(l) && l.targets.ids != []
    requires Within(l, turns, m)
    ensures Inv(m) && OnAttempt(m, b) && WentRound(l, m, a, b, missing, SessionRefused(l, turns))
    decreases |turns|
  {
    hide Inv, OnAttempt, Asked, SameAttempt, NextAttempt, WentRound, Next, Enabled, RefusedNow;
    if turns == [] {
      b, missing := a, [];
      WentNowhere(l, a, SessionRefused(l, turns));
    } else {
      var t := turns[0];
      var n := Next(l, t.event, t.env);
      EventNext(l, t.event, a, t.env);
      NextKeeps(l, t.event, t.env);
      KnownIds(l, n, a, t.event.Fire? && RefusedNow(l, t.env));
      if SameAttempt(l, n, a) {
        AttemptGoesOn(l, n, a);
        b, missing := FailuresGoRound(n, turns[1..], m, a);
        WentOn(l, n, m, a, b, missing, SessionRefused(n, turns[1..]));
        RefusedMore(l, m, a, b, missing, SessionRefused(n, turns[1..]), SessionRefused(l, turns));
      } else {
        NextIsArmed(l, n, a, t.event.Fire? && RefusedNow(l, t.env));
        b, missing := FailuresGoRound(n, turns[1..], m, a + 1);
        missing := WentFurther(l, n, m, a, b, missing, t.event.Fire? && RefusedNow(l, t.env), SessionRefused(n, turns[1..]));
      }
    }
  }

  lemma RefusedMore(l: Lifecycle, m: Lifecycle, a: nat, b: nat, missing: seq<bool>, refused: bool, more: bool)
    requires WentRound(l, m, a, b, missing, refused) && (refused ==> more)
    ensures WentRound(l, m, a, b, missing, more)
  {
  }

  lemma KnownIds(l: Lifecycle, m: Lifecycle, a: nat, refused: bool)
    requires SameAttempt(l, m, a) || NextAttempt(l, m, a, refused)
    ensures m.targets.ids == l.targets.ids
  {
    hide OnAttempt, Asked, Rotates;
  }

  lemma NextIsArmed(l: Lifecycle, m: Lifecycle, a: nat, refused: bool)
    requires NextAttempt(l, m, a, refused)
    ensures OnAttempt(m, a + 1) && Asked(m)
  {
  }

  lemma OneAttempt(l: Lifecycle, a: nat, b: nat)
    requires Inv(l) && l.phase == Reconnecting && OnAttempt(l, a) && OnAttempt(l, b)
    ensures a == b
  {
    hide Record, TimerRefs, Watchdogs, OnlyAttempt;
  }

  /** Fairness over runs: within one cycle of a recovery, by the time 3n attempts have failed from the one
      armed, every one of the n candidates has been asked for, unless the session itself was refused. */
  lemma RecoveryAsksEveryCandidate(before: seq<Turn>, l: Lifecycle, turns: seq<Turn>, m: Lifecycle, a: nat, b: nat, want: nat)
    requires Runs(Fresh, before, l) && l.phase == Reconnecting && l.attemptTimer.Some? && OnAttempt(l, a)
    requires Within(l, turns, m) && OnAttempt(m, b) && b >= a + 3 * |l.targets.ids| && !SessionRefused(l, turns)
    requires want < |l.targets.ids|
    ensures AskedFor(m.log, l.targets.ids[want], l.cycle)
  {
    hide Next, Enabled, SessionRefused, AskedFor;
    FreshInv();
    RunsKeepInv(Fresh, before, l);
    assert a > 0 by { ArmedIsPositive(l, a); }
    hide Inv;
    var c, missing := FailuresGoRound(l, turns, m, a);
    StaysReconnecting(l, turns, m);
    OneAttempt(m, b, c);
    hide OnAttempt;
    var n := 3 * |l.targets.ids|;
    EveryCandidateIsTried(l.targets, a, missing[..n], want);
    var k :| 0 <= k < n && TargetAt(l.targets, a, missing[..n], k).index == want;
    TargetAtPrefix(l.targets, a, missing, n, k);
    var rounds := TargetIsRotations(l.targets, a, missing, k);
  }

  lemma ArmedIsPositive(l: Lifecycle, a: nat)
    requires Inv(l) && l.attemptTimer.Some? && OnAttempt(l, a)
    ensures a > 0
  {
    hide Sound, Flight;
  }

  lemma {:induction false} StaysReconnecting(l: Lifecycle, turns: seq<Turn>, m: Lifecycle)
    requires l.phase == Reconnecting && Within(l, turns, m)
    ensures m.phase == Reconnecting && m.cycle == l.cycle
    decreases |turns|
  {
    hide Next;
    if turns != [] {
      StaysReconnecting(Next(l, turns[0].event, turns[0].env), turns[1..], m);
    }
  }

  lemma {:induction false} TargetAtPrefix(c: Candidates, a: nat, missing: seq<bool>, n: nat, k: nat)
    requires k <= n <= |missing|
    ensures TargetAt(c, a, missing[..n], k) == TargetAt(c, a, missing, k)
  {
    hide AfterFailure;
    if k > 0 {
      TargetAtPrefix(c, a, missing, n, k - 1);
    }
  }
}
