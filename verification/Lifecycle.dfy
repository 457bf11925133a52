/** The tunnel lifecycle as a function of its queue events. Every event runs to completion on one
    serial queue; what the core, the host and the clock answer meanwhile is the event's `Env`. */
module Lifecycle {
  import opened Support
  import opened Reconnect

  datatype Phase = Idle | Starting | Running | Reconnecting | Waiting | Stopped

  /** What a settings apply goes on to once it is answered. */
  datatype Cont =
    | BlockingApplied(session: nat)
    | CandidateTried(index: nat, cycle: nat)
    | AttemptMade(attempt: nat, cycle: nat)
    | SwitchMade(cycle: nat)

  datatype Work =
    | RunAttempt(attempt: nat, cycle: nat)
    | Recheck
    | LivenessTick
    | WakeCheck
    | Watchdog(apply: nat)

  /** A timer: `live` until it fires or is cancelled. */
  datatype Job = Job(work: Work, after: real, live: bool)

  type Fingerprint = int

  /** A settings apply: `loaded` until its once-only completion has fired. */
  datatype Apply = Apply(cont: Cont, fingerprint: Fingerprint, watchdog: nat, loaded: bool)

  datatype PathUpdate = PathUpdate(usable: bool, key: string)

  datatype Pending = Pending(cycle: nat, id: nat)

  datatype TunnelEvent = Connected | Restored | TunnelReconnecting | Blocked(reason: StartError) | TunnelStopped

  /** What the lifecycle did to the outside world, oldest first. */
  datatype Effect =
    | Began(id: nat)
    | Completed(id: nat, error: Option<Error>)
    | Prepared(server: string, phase: Phase, cycle: nat, begun: nat)
    | CoreStarted(phase: Phase, cycle: nat, begun: nat)
    | CoreStopped
    | CoreStoppedForSwitch
    | Told(event: TunnelEvent)

  /** One establish's answers from the core and the host. */
  datatype Answers = Answers(
    session: Result<seq<string>, Error>,
    prepare: Option<Error>,
    settings: Result<Fingerprint, Error>,
    fd: int,
    start: Option<Error>)

  datatype Env = Env(
    now: real,
    wallNow: real,
    lastHandshake: int,
    hostAlive: bool,
    blockingFingerprint: Fingerprint,
    session: Result<seq<string>, Error>,
    establish: nat -> Answers,
    fd: int,
    start: Option<Error>)

  datatype Event =
    | StartTunnel(option: Option<string>)
    | StopTunnel
    | PathChanged(update: PathUpdate)
    | SwitchServer(server: string, candidates: seq<string>)
    | WokeUp
    | Fire(job: nat)
    | Callback(apply: nat, error: Option<Error>)

  const SETTINGS_TIMEOUT: real := 5.0
  const CHECK_INTERVAL: real := 15.0
  const STALE_AFTER: real := 180.0
  const LIVENESS_GRACE: real := 30.0
  const WAKE_GRACE: real := 15.0

  datatype Lifecycle = Lifecycle(
    phase: Phase,
    policy: Policy,
    graceUntil: Option<real>,
    targets: Candidates,
    optionServer: Option<string>,
    sessionReady: bool,
    blockingDone: bool,
    preparedExit: Option<string>,
    appliedFingerprint: Option<Fingerprint>,
    cycle: nat,
    session: nat,
    pending: Option<Pending>,
    attemptTimer: Option<nat>,
    recheckTimer: Option<nat>,
    livenessTimer: Option<nat>,
    wakeTimers: seq<nat>,
    latest: Option<PathUpdate>,
    startBaseline: Option<string>,
    everConnected: bool,
    outage: bool,
    // Outside the object: the schedulers' timers, the applies handed to the system, the starts
    // issued so far and the record of effects.
    jobs: seq<Job>,
    applies: seq<Apply>,
    issued: nat,
    log: seq<Effect>)

  const Fresh := Lifecycle(
    Idle, FreshPolicy, None, CandidateList([], 0), None, false, false, None, None, 0, 0, None,
    None, None, None, [], None, None, false, false, [], [], 0, [])

  // ---- Effects and timers ----

  function Do(l: Lifecycle, e: Effect): Lifecycle {
    l.(log := l.log + [e])
  }

  function Cancelled(jobs: seq<Job>, t: Option<nat>): seq<Job> {
    if t.Some? && t.value < |jobs| then jobs[t.value := jobs[t.value].(live := false)] else jobs
  }

  function CancelledAll(jobs: seq<Job>, ts: seq<nat>): seq<Job>
    decreases |ts|
  {
    if ts == [] then jobs else CancelledAll(Cancelled(jobs, Some(ts[0])), ts[1..])
  }

  function CancelTimers(l: Lifecycle): Lifecycle {
    l.(jobs := CancelledAll(
        Cancelled(Cancelled(Cancelled(l.jobs, l.attemptTimer), l.recheckTimer), l.livenessTimer), l.wakeTimers),
      attemptTimer := None, recheckTimer := None, livenessTimer := None, wakeTimers := [])
  }

  function ScheduleAttempt(l: Lifecycle, attempt: nat, after: real): Lifecycle {
    l.(jobs := l.jobs + [Job(RunAttempt(attempt, l.cycle), after, true)], attemptTimer := Some(|l.jobs|))
  }

  // ---- Starting and stopping ----

  function AbandonPendingStart(l: Lifecycle): Lifecycle {
    match l.pending
    case None => l
    case Some(p) => Do(l.(pending := None), Completed(p.id, Some(Start(StartStopped))))
  }

  function ResetSession(l: Lifecycle): Lifecycle {
    var a := AbandonPendingStart(l);
    ForgetSession(CancelTimers(a.(cycle := a.cycle + 1, session := a.session + 1)))
  }

  function ForgetSession(l: Lifecycle): Lifecycle {
    l.(policy := FreshPolicy, graceUntil := None, targets := CandidateList([], 0), optionServer := None,
       sessionReady := false, blockingDone := false, preparedExit := None, appliedFingerprint := None,
       latest := None, startBaseline := None, everConnected := false, outage := false)
  }

  function DoStart(l: Lifecycle, option: Option<string>, env: Env): Lifecycle {
    var r := ResetSession(l);
    var id := r.issued;
    var s := Do(r.(phase := Starting, optionServer := option, issued := id + 1), Began(id));
    ApplyBlocking(s.(pending := Some(Pending(s.cycle, id))), env)
  }

  function DoStop(l: Lifecycle): Lifecycle {
    var announce := l.phase != Stopped;
    var s := Do(CancelTimers(l.(phase := Stopped, cycle := l.cycle + 1)), CoreStopped);
    var q := AbandonPendingStart(s).(everConnected := false, outage := false);
    if announce then Do(q, Told(TunnelStopped)) else q
  }

  // ---- Settings applies ----

  function ApplySettings(l: Lifecycle, fingerprint: Fingerprint, cont: Cont, env: Env): Lifecycle {
    l.(appliedFingerprint := None, policy := l.policy.SettingsApplied(env.now),
       jobs := l.jobs + [Job(Watchdog(|l.applies|), SETTINGS_TIMEOUT, true)],
       applies := l.applies + [Apply(cont, fingerprint, |l.jobs|, true)])
  }

  function ApplyBlocking(l: Lifecycle, env: Env): Lifecycle {
    if env.hostAlive then ApplySettings(l, env.blockingFingerprint, BlockingApplied(l.session), env)
    else OnBlockingApplied(l, Some(Start(StartStopped)), l.session, env)
  }

  /** The watchdog counts as success: the fd probe decides instead. */
  function ProceedingPastTimeout(e: Option<Error>): Option<Error> {
    if e == Some(Start(SettingsTimeout)) then None else e
  }

  /** The once-only completion of apply `id` fires. */
  function SettingsAnswered(l: Lifecycle, id: nat, error: Option<Error>, env: Env): Lifecycle
    requires id < |l.applies|
  {
    Continue(Unloaded(l, id, error, env.now), l.applies[id].cont, ProceedingPastTimeout(error), env)
  }

  function Unloaded(l: Lifecycle, id: nat, error: Option<Error>, now: real): Lifecycle
    requires id < |l.applies|
  {
    var a := l.applies[id];
    var fired := l.(applies := l.applies[id := a.(loaded := false)], policy := l.policy.SettingsApplied(now));
    if error.None? then fired.(appliedFingerprint := Some(a.fingerprint)) else fired
  }

  function Continue(l: Lifecycle, cont: Cont, passed: Option<Error>, env: Env): Lifecycle {
    match cont
    case BlockingApplied(session) => OnBlockingApplied(l, passed, session, env)
    case CandidateTried(index, cycle) =>
      var (s, e) := StartCore(l, passed, cycle, env.fd, env.start);
      CandidateFinished(s, index, e, cycle, env)
    case AttemptMade(attempt, cycle) =>
      var (s, e) := StartCore(l, passed, cycle, env.fd, env.start);
      AttemptFinished(s, attempt, cycle, e, env)
    case SwitchMade(cycle) =>
      var (s, e) := StartCore(l, passed, cycle, env.fd, env.start);
      SwitchFinished(s, e, cycle, env)
  }

  function OnCallback(l: Lifecycle, id: nat, error: Option<Error>, env: Env): Lifecycle
    requires id < |l.applies|
  {
    var c := l.(jobs := Cancelled(l.jobs, Some(l.applies[id].watchdog)));
    if l.applies[id].loaded then SettingsAnswered(c, id, error, env) else c
  }

  function OnWatchdog(l: Lifecycle, id: nat, env: Env): Lifecycle {
    if id < |l.applies| && l.applies[id].loaded
    then SettingsAnswered(l, id, Some(Start(SettingsTimeout)), env)
    else l
  }

  // ---- The start sequence ----

  function OnBlockingApplied(l: Lifecycle, error: Option<Error>, started: nat, env: Env): Lifecycle {
    if started != l.session || l.phase != Starting || l.pending.None? then l
    else if error.Some? then FinishStart(l, error, l.pending.value.cycle, env)
    else RunStartSequence(l.(blockingDone := true), l.pending.value.cycle, env)
  }

  function RunStartSequence(l: Lifecycle, started: nat, env: Env): Lifecycle {
    var (s, e) := EnsureSession(l, env.session);
    if e.Some? then FinishStart(s, e, started, env) else TryCandidate(s, 0, started, env)
  }

  function EnsureSession(l: Lifecycle, answer: Result<seq<string>, Error>): (Lifecycle, Option<Error>) {
    if l.sessionReady then (l, None)
    else
      match answer
      case Err(e) => (l, Some(e))
      case Ok(ids) =>
        (l.(sessionReady := true, targets := if l.targets.ids == [] then At(ids, 0) else l.targets), None)
  }

  function CandidatesLeft(l: Lifecycle, index: nat): nat {
    if index < |l.targets.ids| then |l.targets.ids| - index else 0
  }

  function TryCandidate(l: Lifecycle, index: nat, started: nat, env: Env): Lifecycle
    decreases !l.sessionReady, CandidatesLeft(l, index), 1
  {
    var t := l.(targets := At(l.targets.ids, index));
    var (s, o) := Establish(t, env.establish(index), CandidateTried(index, started), started, false, env);
    if o.InFlight? then s else CandidateFinished(s, index, o.error, started, env)
  }

  function CandidateFinished(l: Lifecycle, index: nat, error: Option<Error>, started: nat, env: Env): Lifecycle
    decreases !l.sessionReady, CandidatesLeft(l, index), 0
  {
    if started != l.cycle || l.pending.None? || l.pending.value.cycle != started then l
    else if error.None? then FinishStart(l, None, started, env)
    else if index + 1 < |l.targets.ids| && WorthNextCandidate(error.value) then TryCandidate(l, index + 1, started, env)
    else FinishStart(l, error, started, env)
  }

  predicate WorthNextCandidate(e: Error) {
    !IsStopped(e) && (Classify(e) == Transient || Classify(e) == Terminal(NoServer))
  }

  predicate ContinuesBlocked(l: Lifecycle, e: Error) {
    l.optionServer.None? && l.blockingDone && !IsStopped(e)
  }

  function FinishStart(l: Lifecycle, error: Option<Error>, started: nat, env: Env): Lifecycle {
    if l.pending.None? || l.pending.value.cycle != started then l
    else
      var p := l.pending.value;
      var done := l.(pending := None);
      if error.Some? && !ContinuesBlocked(done, error.value) then FailStart(done, error.value, p)
      else GoOn(Succeeded(done, p), error, env)
  }

  function Succeeded(l: Lifecycle, p: Pending): Lifecycle {
    var seeded := if l.startBaseline.Some? then l.(policy := l.policy.Seed(l.startBaseline.value)) else l;
    Do(seeded, Completed(p.id, None))
  }

  /** A system start that failed stays up with traffic blocked and keeps retrying. */
  function GoOn(l: Lifecycle, error: Option<Error>, env: Env): Lifecycle {
    var up := if error.Some? then Retry(l.(phase := Reconnecting), 1, error.value) else CameUp(l, env);
    if up.latest.Some? then Handle(up, up.latest.value, env) else up
  }

  function FailStart(l: Lifecycle, e: Error, p: Pending): Lifecycle {
    Do(CancelTimers(l.(phase := Idle)), Completed(p.id, Some(e)))
  }

  // ---- Establishing ----

  datatype Outcome = InFlight | Done(error: Option<Error>)

  function Establish(l: Lifecycle, answers: Answers, cont: Cont, current: nat, switching: bool, env: Env): (Lifecycle, Outcome) {
    var (s, e) := EnsureSession(l, answers.session);
    if e.Some? then (s, Done(e))
    else
      var (got, refused) := PrepareRoute(s, answers.prepare, current);
      if refused.Some? then (got, Done(refused)) else Install(got, answers, cont, current, switching, env)
  }

  /** The prepared route's settings: unchanged ones are not applied twice. */
  function Install(l: Lifecycle, answers: Answers, cont: Cont, current: nat, switching: bool, env: Env): (Lifecycle, Outcome) {
    match answers.settings
    case Err(bad) => (l, Done(Some(bad)))
    case Ok(fingerprint) =>
      var cut := if switching then Do(l, CoreStoppedForSwitch) else l;
      if cut.appliedFingerprint == Some(fingerprint) then
        var (up, failed) := StartCore(cut, None, current, answers.fd, answers.start);
        (up, Done(failed))
      else if env.hostAlive then (ApplySettings(cut, fingerprint, cont, env), InFlight)
      else (cut, Done(Some(Start(StartStopped))))
  }

  function PrepareRoute(l: Lifecycle, refused: Option<Error>, current: nat): (Lifecycle, Option<Error>) {
    var asked := Do(l, Prepared(l.targets.Current(), l.phase, l.cycle, current));
    if refused.Some? then (asked, refused)
    else (asked.(preparedExit := Some(asked.targets.Current())), None)
  }

  /** The utun only exists once the settings are applied; an answer for an older cycle stops here. */
  function StartCore(l: Lifecycle, settingsError: Option<Error>, current: nat, fd: int, start: Option<Error>): (Lifecycle, Option<Error>) {
    if settingsError.Some? then (l, settingsError)
    else if l.phase == Stopped then (l, Some(Start(StartStopped)))
    else if current != l.cycle then (l, Some(Superseded))
    else if fd < 0 then (l, Some(Start(NoTunnelInterface)))
    else (Do(l, CoreStarted(l.phase, l.cycle, current)), start)
  }

  // ---- Up and down ----

  function CameUp(l: Lifecycle, env: Env): Lifecycle {
    AnnounceUp(ScheduleLivenessTick(l.(phase := Running, graceUntil := Some(env.now + LIVENESS_GRACE))))
  }

  function AnnounceUp(l: Lifecycle): Lifecycle {
    var told :=
      if !l.everConnected then Do(l, Told(Connected))
      else if l.outage then Do(l, Told(Restored))
      else l;
    told.(everConnected := true, outage := false)
  }

  function AnnounceTrouble(l: Lifecycle, failure: Failure): Lifecycle {
    match failure
    case Terminal(reason) => Do(l.(outage := true), Told(Blocked(reason)))
    case Transient => if l.outage then l else Do(l.(outage := true), Told(TunnelReconnecting))
    case Locked => l
  }

  // ---- Recovery ----

  function Handle(l: Lifecycle, u: PathUpdate, env: Env): Lifecycle {
    var (p, d) := l.policy.PathChanged(u.key, u.usable, env.now);
    var h := l.(policy := p);
    match d
    case Ignore => h
    case RecheckAfter(delay) =>
      var j := Cancelled(h.jobs, h.recheckTimer);
      h.(jobs := j + [Job(Recheck, delay, true)], recheckTimer := Some(|j|))
    case WaitForNetwork => EnterWaiting(h)
    case ReconnectAfter(delay) => BeginRecovery(h, delay)
  }

  function BeginRecovery(l: Lifecycle, after: real): Lifecycle {
    var t := AnnounceTrouble(l, Transient);
    ScheduleAttempt(CancelTimers(t.(phase := Reconnecting, cycle := t.cycle + 1)), 1, after)
  }

  function EnterWaiting(l: Lifecycle): Lifecycle {
    var m := l.(policy := l.policy.MarkWaiting());
    if m.phase == Waiting then m
    else AnnounceTrouble(Do(CancelTimers(m.(phase := Waiting, cycle := m.cycle + 1)), CoreStopped), Transient)
  }

  predicate PathDown(l: Lifecycle) {
    l.latest.Some? && !l.latest.value.usable
  }

  function RetryFailure(l: Lifecycle, e: Error): Failure {
    if Missing(l, e) then Transient else Classify(e)
  }

  predicate Missing(l: Lifecycle, e: Error) {
    Classify(e) == Terminal(NoServer) && |l.targets.ids| > 1
  }

  function Retry(l: Lifecycle, attempt: nat, e: Error): Lifecycle {
    if PathDown(l) then EnterWaiting(l) else TryAgain(l, attempt, RetryFailure(l, e), Missing(l, e))
  }

  function TryAgain(l: Lifecycle, attempt: nat, failure: Failure, missing: bool): Lifecycle {
    var cleared := if failure.Terminal? then l.(sessionReady := false) else l;
    var told := AnnounceTrouble(cleared, failure);
    var moved := told.(targets := AfterFailure(told.targets, attempt, missing));
    ScheduleAttempt(moved, attempt + 1, Delay(failure, attempt))
  }

  function OnRecheck(l: Lifecycle, env: Env): Lifecycle {
    var r := l.(recheckTimer := None);
    if r.phase in {Running, Reconnecting, Waiting} && r.latest.Some? then Handle(r, r.latest.value, env) else r
  }

  function OnRunAttempt(l: Lifecycle, attempt: nat, current: nat, env: Env): Lifecycle {
    if l.phase != Reconnecting || current != l.cycle then l
    else
      var r := l.(attemptTimer := None);
      if PathDown(r) then EnterWaiting(r)
      else
        var inPlace := attempt == 1 && r.preparedExit == Some(r.targets.Current());
        var (s, restarted) := if inPlace then RestartInPlace(r, env) else (r, false);
        if restarted then AttemptFinished(s, attempt, current, None, env)
        else MadeAttempt(s, attempt, current, env)
  }

  function MadeAttempt(l: Lifecycle, attempt: nat, current: nat, env: Env): Lifecycle {
    var (q, o) := Establish(Do(l, CoreStopped), env.establish(0), AttemptMade(attempt, current), current, false, env);
    if o.InFlight? then q else AttemptFinished(q, attempt, current, o.error, env)
  }

  function RestartInPlace(l: Lifecycle, env: Env): (Lifecycle, bool) {
    var s := Do(l, CoreStopped);
    if env.fd < 0 then (s, false) else (Do(s, CoreStarted(s.phase, s.cycle, s.cycle)), env.start.None?)
  }

  function AttemptFinished(l: Lifecycle, attempt: nat, current: nat, error: Option<Error>, env: Env): Lifecycle {
    if l.phase != Reconnecting || current != l.cycle then l
    else if error.None? then CameUp(l, env)
    else Retry(l, attempt, error.value)
  }

  // ---- Switching ----

  function Retarget(l: Lifecycle, server: string, listed: seq<string>): Lifecycle {
    var option := if l.optionServer.Some? then l.optionServer.value else "";
    var previous := if l.targets.Current() == "" then option else l.targets.Current();
    l.(targets := ForSwitch(server, previous, listed))
  }

  function DoSwitch(l: Lifecycle, server: string, listed: seq<string>, env: Env): Lifecycle {
    if server == "" then l
    else
      match l.phase
      case Idle | Stopped => l
      case Starting => SupersedeStart(l, server, listed, env)
      case Running | Reconnecting | Waiting => BeginSwitch(l, server, listed, env)
  }

  function SupersedeStart(l: Lifecycle, server: string, listed: seq<string>, env: Env): Lifecycle {
    if l.pending.None? then l
    else
      var r := Retarget(l, server, listed);
      var s := r.(cycle := r.cycle + 1, pending := Some(Pending(r.cycle + 1, l.pending.value.id)));
      if s.blockingDone then RunStartSequence(s, s.cycle, env) else s
  }

  function BeginSwitch(l: Lifecycle, server: string, listed: seq<string>, env: Env): Lifecycle {
    var r := Retarget(l, server, listed);
    if r.phase == Waiting then r
    else
      var s := CancelTimers(r.(phase := Reconnecting, cycle := r.cycle + 1));
      var (q, o) := Establish(s, env.establish(0), SwitchMade(s.cycle), s.cycle, true, env);
      if o.InFlight? then q else SwitchFinished(q, o.error, s.cycle, env)
  }

  function SwitchFinished(l: Lifecycle, error: Option<Error>, current: nat, env: Env): Lifecycle {
    if l.phase != Reconnecting || current != l.cycle then l
    else if error.None? then CameUp(l, env)
    else Retry(l, 1, error.value)
  }

  // ---- Liveness ----

  function ScheduleLivenessTick(l: Lifecycle): Lifecycle {
    var j := Cancelled(l.jobs, l.livenessTimer);
    l.(jobs := j + [Job(LivenessTick, CHECK_INTERVAL, true)], livenessTimer := Some(|j|))
  }

  predicate Stale(l: Lifecycle, env: Env) {
    && env.lastHandshake > 0
    && !(l.graceUntil.Some? && env.now < l.graceUntil.value)
    && env.wallNow - env.lastHandshake as real > STALE_AFTER
  }

  function CheckLiveness(l: Lifecycle, env: Env): Lifecycle {
    if l.phase == Running && Stale(l, env) then BeginRecovery(l, 0.0) else l
  }

  function OnLivenessTick(l: Lifecycle, env: Env): Lifecycle {
    var t := l.(livenessTimer := None);
    if t.phase != Running then t
    else
      var c := CheckLiveness(t, env);
      if c.phase == Running then ScheduleLivenessTick(c) else c
  }

  function DoWake(l: Lifecycle, env: Env): Lifecycle {
    if l.phase != Running then l
    else
      var j := CancelledAll(l.jobs, l.wakeTimers);
      l.(graceUntil := Some(env.now + WAKE_GRACE),
         jobs := j + [Job(WakeCheck, 17.0, true), Job(WakeCheck, 32.0, true)],
         wakeTimers := [|j|, |j| + 1])
  }

  // ---- Events ----

  function DoPath(l: Lifecycle, u: PathUpdate, env: Env): Lifecycle {
    var n := l.(latest := Some(u));
    match n.phase
    case Starting => if n.startBaseline.None? && u.usable && u.key != "" then n.(startBaseline := Some(u.key)) else n
    case Running | Reconnecting | Waiting => Handle(n, u, env)
    case Idle | Stopped => n
  }

  function DoFire(l: Lifecycle, job: nat, env: Env): Lifecycle
    requires job < |l.jobs|
  {
    var fired := l.(jobs := Cancelled(l.jobs, Some(job)));
    match l.jobs[job].work
    case RunAttempt(attempt, cycle) => OnRunAttempt(fired, attempt, cycle, env)
    case Recheck => OnRecheck(fired, env)
    case LivenessTick => OnLivenessTick(fired, env)
    case WakeCheck => CheckLiveness(fired, env)
    case Watchdog(apply) => OnWatchdog(fired, apply, env)
  }

  /** A dead timer never fires, and the system only answers an apply it was handed. */
  predicate Enabled(l: Lifecycle, e: Event) {
    match e
    case Fire(job) => job < |l.jobs| && l.jobs[job].live
    case Callback(apply, _) => apply < |l.applies|
    case _ => true
  }

  function Next(l: Lifecycle, e: Event, env: Env): Lifecycle
    requires Enabled(l, e)
  {
    match e
    case StartTunnel(option) => DoStart(l, option, env)
    case StopTunnel => DoStop(l)
    case PathChanged(update) => DoPath(l, update, env)
    case SwitchServer(server, candidates) => DoSwitch(l, server, candidates, env)
    case WokeUp => DoWake(l, env)
    case Fire(job) => DoFire(l, job, env)
    case Callback(apply, error) => OnCallback(l, apply, error, env)
  }
}
