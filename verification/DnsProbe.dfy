/** The data-path probe of a running session: when rounds of unanswered queries become a verdict to
    rebuild the tunnel, and how a rebuild keeps the next one away. Times are milliseconds; None is the
    zero time. */
module DnsProbe {
  import opened Support

  const FAILURES_BEFORE_REBUILD := 2
  const REBUILD_COOLDOWN := 300_000
  const PROBE_SERVERS := 2
  const RESCUE_BYTES := 256
  const RESUME_DEDUPE := 10_000
  const RESUME_FRESH := 90_000
  const RESUME_SETTLE := 15_000
  const FLAP_WINDOW := 600_000
  const RESCUE_LOG_INTERVAL := 600_000

  /** The transport the next cascade treats first: redialled, or demoted. */
  datatype Lead = Lead(kind: string, demote: bool)

  datatype Probe = Probe(
    failures: int,
    nextAt: Option<int>,
    quietUntil: Option<int>,
    resumeNotedAt: Option<int>,
    resumeFreshUntil: Option<int>,
    lastDeadKind: string,
    lastDeadAt: Option<int>,
    rescueLoggedAt: Option<int>,
    healthHoldUntil: Option<int>,
    recoveryAttempts: int,
    recoveryNextAt: Option<int>,
    recoveryLead: Option<Lead>)

  const NEW_SESSION := Probe(0, None, None, None, None, "", None, None, None, 0, None, None)

  predicate Before(now: int, t: Option<int>) {
    t.Some? && now < t.value
  }

  // ---- What each call does to the schedule ----

  /** The three readings of the clock a recorded failure takes, in order. */
  datatype Reading = Reading(began: int, checked: int, booked: int)

  function Threshold(p: Probe, began: int): int {
    if Before(began, p.resumeFreshUntil) then 1 else FAILURES_BEFORE_REBUILD
  }

  function RecordFailure(p: Probe, at: Reading): (Probe, bool) {
    if p.failures + 1 < Threshold(p, at.began) then (p.(failures := p.failures + 1), false)
    else if Before(at.checked, p.quietUntil) then (p.(failures := 0), false)
    else (p.(failures := 0, quietUntil := Some(at.booked + REBUILD_COOLDOWN)), true)
  }

  function Forgiven(p: Probe): Probe {
    p.(failures := 0)
  }

  function Deferred(p: Probe): Probe {
    p.(failures := 0, quietUntil := None)
  }

  /** A second notice of one resume is ignored. */
  predicate Deduped(p: Probe, now: int) {
    p.resumeNotedAt.Some? && now - p.resumeNotedAt.value < RESUME_DEDUPE
  }

  /** Health checks are held until `until`, and the next recovery is not backed off. */
  function Held(p: Probe, until: int): Probe {
    p.(failures := 0, healthHoldUntil := Some(until), recoveryAttempts := 0, recoveryNextAt := None)
  }

  function Resumed(p: Probe, now: int): Probe {
    if Deduped(p, now) then p
    else
      Held(p, now + RESUME_SETTLE).(quietUntil := None, resumeNotedAt := Some(now),
        resumeFreshUntil := Some(now + RESUME_FRESH), nextAt := Some(now + RESUME_SETTLE))
  }

  /** A rescue is told once per interval. */
  function RescueLogged(p: Probe, now: int): (Probe, bool) {
    if p.rescueLoggedAt.Some? && now < p.rescueLoggedAt.value + RESCUE_LOG_INTERVAL then (p, false)
    else (p.(rescueLoggedAt := Some(now)), true)
  }

  predicate Demotes(p: Probe, kind: string, now: int) {
    kind == p.lastDeadKind && p.lastDeadAt.Some? && now - p.lastDeadAt.value < FLAP_WINDOW
  }

  /** A transport that died is redialled at probe cadence, unless it keeps dying. */
  function NotedDead(p: Probe, kind: string, now: int): Probe {
    var led := p.(recoveryLead := Some(Lead(kind, Demotes(p, kind, now))));
    if Demotes(p, kind, now) then led.(lastDeadKind := "", lastDeadAt := None)
    else led.(lastDeadKind := kind, lastDeadAt := Some(now), quietUntil := None)
  }

  // ---- Runs ----

  datatype Event =
    | Answered
    | Missed(at: Reading)
    | Defer
    | Reset(next: int)
    | Hold(until: int, next: int)
    | EndSession
    | Resume(now: int)
    | NoteDead(kind: string, now: int)
    | Claim(now: int, next: int)
    | Hasten
    | RescueLog(now: int)

  /** What an event meant for the count and for the cooldown; read by no step. */
  datatype Note =
    | Miss(at: Reading, afterResume: bool, full: bool, verdict: bool)
    | Effect(forgives: bool, lifts: bool)
    | Woke(now: int, ignored: bool)
    | Death(kind: string, now: int, demoted: bool)

  datatype Run = Run(p: Probe, log: seq<Note>)

  ghost predicate Enabled(r: Run, e: Event) {
    match e
    case Missed(at) => at.began <= at.checked <= at.booked
    case _ => true
  }

  function After(p: Probe, e: Event): Probe {
    match e
    case Answered => Forgiven(p)
    case Missed(at) => RecordFailure(p, at).0
    case Defer => Deferred(p)
    case Reset(next) => Forgiven(p).(nextAt := Some(next))
    case Hold(until, next) => Held(p, until).(nextAt := Some(next))
    case EndSession => Deferred(p).(nextAt := None, rescueLoggedAt := None)
    case Resume(now) => Resumed(p, now)
    case NoteDead(kind, now) => NotedDead(p, kind, now)
    case Claim(now, next) => if Before(now, p.nextAt) then p else p.(nextAt := Some(next))
    case Hasten => p.(nextAt := None)
    case RescueLog(now) => RescueLogged(p, now).0
  }

  function NoteOf(p: Probe, e: Event): Note {
    match e
    case Answered => Effect(true, false)
    case Missed(at) =>
      Miss(at, Before(at.began, p.resumeFreshUntil), p.failures + 1 >= Threshold(p, at.began), RecordFailure(p, at).1)
    case Defer => Effect(true, true)
    case Reset(_) => Effect(true, false)
    case Hold(_, _) => Effect(true, false)
    case EndSession => Effect(true, true)
    case Resume(now) => Woke(now, Deduped(p, now))
    case NoteDead(kind, now) => Death(kind, now, Demotes(p, kind, now))
    case Claim(_, _) => Effect(false, false)
    case Hasten => Effect(false, false)
    case RescueLog(_) => Effect(false, false)
  }

  function Next(r: Run, e: Event): Run {
    Run(After(r.p, e), r.log + [NoteOf(r.p, e)])
  }

  predicate Forgives(n: Note) {
    (n.Miss? && n.full) || (n.Effect? && n.forgives) || (n.Woke? && !n.ignored)
  }

  predicate Lifts(n: Note) {
    (n.Effect? && n.lifts) || (n.Woke? && !n.ignored) || (n.Death? && !n.demoted)
  }

  predicate IsVerdict(n: Note) {
    n.Miss? && n.verdict
  }

  /** The rounds missed in a row since the count was last forgiven. */
  function Misses(log: seq<Note>): nat {
    if log == [] || Forgives(log[|log| - 1]) then 0
    else Misses(log[..|log| - 1]) + if log[|log| - 1].Miss? then 1 else 0
  }

  /** When the last verdict was booked, unless the cooldown was lifted since. */
  function LastVerdict(log: seq<Note>): Option<int> {
    if log == [] || Lifts(log[|log| - 1]) then None
    else if IsVerdict(log[|log| - 1]) then Some(log[|log| - 1].at.booked)
    else LastVerdict(log[..|log| - 1])
  }

  /** The last resume that was not ignored. */
  function LastWake(log: seq<Note>): Option<int> {
    if log == [] then None
    else
      var n := log[|log| - 1];
      if n.Woke? && !n.ignored then Some(n.now) else LastWake(log[..|log| - 1])
  }

  /** The last transport noted dead and when, unless that note demoted it. */
  function LastDeath(log: seq<Note>): Option<(string, int)> {
    if log == [] then None
    else
      var n := log[|log| - 1];
      if n.Death? then if n.demoted then None else Some((n.kind, n.now)) else LastDeath(log[..|log| - 1])
  }

  /** A verdict is given exactly when enough rounds were missed in a row, and the last one not lifted
      since is at least the cooldown ago. */
  ghost predicate VerdictDue(log: seq<Note>, at: Reading, afterResume: bool) {
    && Misses(log) + 1 >= (if afterResume then 1 else FAILURES_BEFORE_REBUILD)
    && (LastVerdict(log).Some? ==> at.checked >= LastVerdict(log).value + REBUILD_COOLDOWN)
  }

  ghost predicate Earned(log: seq<Note>, i: nat)
    requires i < |log|
  {
    var before := log[..i];
    match log[i]
    case Miss(at, afterResume, full, verdict) =>
      && at.began <= at.checked <= at.booked
      && (afterResume <==> LastWake(before).Some? && at.began < LastWake(before).value + RESUME_FRESH)
      && (verdict <==> VerdictDue(before, at, afterResume))
      && (full <==> Misses(before) + 1 >= if afterResume then 1 else FAILURES_BEFORE_REBUILD)
    case Woke(now, ignored) => ignored <==> LastWake(before).Some? && now - LastWake(before).value < RESUME_DEDUPE
    case Death(kind, now, demoted) =>
      demoted <==> LastDeath(before).Some? && LastDeath(before).value.0 == kind && now - LastDeath(before).value.1 < FLAP_WINDOW
    case _ => true
  }

  /** The schedule is what the log says. */
  ghost predicate Told(p: Probe, log: seq<Note>) {
    && p.failures == Misses(log)
    && p.quietUntil == (if LastVerdict(log).Some? then Some(LastVerdict(log).value + REBUILD_COOLDOWN) else None)
    && p.resumeNotedAt == LastWake(log)
    && p.resumeFreshUntil == (if LastWake(log).Some? then Some(LastWake(log).value + RESUME_FRESH) else None)
    && (if LastDeath(log).Some? then p.lastDeadKind == LastDeath(log).value.0 && p.lastDeadAt == Some(LastDeath(log).value.1)
        else p.lastDeadAt.None?)
  }

  ghost predicate Inv(r: Run) {
    Told(r.p, r.log) && forall i: nat :: i < |r.log| ==> Earned(r.log, i)
  }

  lemma NoteIsEarned(r: Run, e: Event)
    requires Told(r.p, r.log) && Enabled(r, e)
    ensures Earned(r.log + [NoteOf(r.p, e)], |r.log|)
  {
    assert (r.log + [NoteOf(r.p, e)])[..|r.log|] == r.log;
    hide Misses, LastVerdict, LastWake, LastDeath;
  }

  lemma NoteIsTold(r: Run, e: Event)
    requires Told(r.p, r.log) && Enabled(r, e)
    ensures Told(After(r.p, e), r.log + [NoteOf(r.p, e)])
  {
    assert (r.log + [NoteOf(r.p, e)])[..|r.log|] == r.log;
  }

  lemma NextKeeps(r: Run, e: Event)
    requires Inv(r) && Enabled(r, e)
    ensures Inv(Next(r, e))
  {
    var log := r.log + [NoteOf(r.p, e)];
    NoteIsEarned(r, e);
    NoteIsTold(r, e);
    hide Told, Misses, LastVerdict, LastWake, LastDeath, VerdictDue, NoteOf, After;
    forall i: nat | i < |log| ensures Earned(log, i) {
      if i < |r.log| {
        assert log[..i] == r.log[..i];
        assert Earned(r.log, i);
      }
    }
  }

  ghost predicate Runs(r: Run, events: seq<Event>, q: Run)
    decreases |events|
  {
    if events == [] then q == r else Enabled(r, events[0]) && Runs(Next(r, events[0]), events[1..], q)
  }

  const START := Run(NEW_SESSION, [])

  lemma {:induction false} RunsKeepInv(r: Run, events: seq<Event>, q: Run)
    requires Inv(r) && Runs(r, events, q)
    ensures Inv(q)
    decreases |events|
  {
    if events != [] {
      hide Inv, Next, Enabled;
      NextKeeps(r, events[0]);
      RunsKeepInv(Next(r, events[0]), events[1..], q);
    }
  }

  /** The rule over every run: when a missed round is a verdict. */
  lemma VerdictExactlyWhenDue(events: seq<Event>, r: Run, i: nat)
    requires Runs(START, events, r) && i < |r.log| && r.log[i].Miss?
    ensures r.log[i].verdict <==> VerdictDue(r.log[..i], r.log[i].at, r.log[i].afterResume)
  {
    RunsKeepInv(START, events, r);
    assert Earned(r.log, i);
  }

  lemma {:induction false} LastVerdictSince(log: seq<Note>, i: nat)
    requires i < |log| && IsVerdict(log[i]) && (forall k :: i < k < |log| ==> !Lifts(log[k]) && !IsVerdict(log[k]))
    ensures LastVerdict(log) == Some(log[i].at.booked)
    decreases |log|
  {
    if i < |log| - 1 {
      LastVerdictSince(log[..|log| - 1], i);
    }
  }

  /** Two verdicts with no lifting of the cooldown between them are at least five minutes apart. */
  lemma VerdictsAreApart(events: seq<Event>, r: Run, i: nat, j: nat)
    requires Runs(START, events, r) && i < j < |r.log| && IsVerdict(r.log[i]) && IsVerdict(r.log[j])
    requires forall k :: i < k < j ==> !Lifts(r.log[k])
    ensures r.log[j].at.checked >= r.log[i].at.booked + REBUILD_COOLDOWN
    decreases j - i
  {
    RunsKeepInv(START, events, r);
    assert Earned(r.log, j);
    if k :| i < k < j && IsVerdict(r.log[k]) {
      VerdictsAreApart(events, r, i, k);
      VerdictsAreApart(events, r, k, j);
      assert Earned(r.log, k);
    } else {
      assert forall k :: 0 <= k < j ==> r.log[..j][k] == r.log[k];
      LastVerdictSince(r.log[..j], i);
    }
  }

  lemma {:induction false} MissesAreRecent(log: seq<Note>) returns (k: nat)
    requires Misses(log) > 0
    ensures k < |log| && log[k].Miss? && forall j :: k <= j < |log| ==> !Forgives(log[j])
    decreases |log|
  {
    k := |log| - 1;
    if !log[k].Miss? {
      k := MissesAreRecent(log[..|log| - 1]);
    }
  }

  /** Outside the window after a resume a verdict is the second round missed in a row: between the two
      nothing was answered, deferred, reset, held or ended. */
  lemma VerdictNeedsTwoMisses(events: seq<Event>, r: Run, j: nat)
    requires Runs(START, events, r) && j < |r.log| && IsVerdict(r.log[j]) && !r.log[j].afterResume
    ensures exists i :: 0 <= i < j && r.log[i].Miss? && (forall k :: i <= k < j ==> !Forgives(r.log[k]))
  {
    RunsKeepInv(START, events, r);
    assert Earned(r.log, j);
    var i := MissesAreRecent(r.log[..j]);
    assert forall k :: 0 <= k < j ==> r.log[..j][k] == r.log[k];
  }

  /** A second notice of the same resume is ignored, and only such a one; one miss is a verdict only
      within 90 seconds of a resume that was not. */
  lemma ResumesAreNotedOnce(events: seq<Event>, r: Run, i: nat)
    requires Runs(START, events, r) && i < |r.log|
    ensures r.log[i].Woke? ==>
      (r.log[i].ignored <==> LastWake(r.log[..i]).Some? && r.log[i].now - LastWake(r.log[..i]).value < RESUME_DEDUPE)
    ensures r.log[i].Miss? && r.log[i].verdict && Misses(r.log[..i]) == 0 ==>
      LastWake(r.log[..i]).Some? && r.log[i].at.began < LastWake(r.log[..i]).value + RESUME_FRESH
  {
    RunsKeepInv(START, events, r);
    assert Earned(r.log, i);
  }

  lemma {:induction false} LastDeathSince(log: seq<Note>, i: nat)
    requires i < |log| && log[i].Death? && !log[i].demoted && forall k :: i < k < |log| ==> !log[k].Death?
    ensures LastDeath(log) == Some((log[i].kind, log[i].now))
    decreases |log|
  {
    if i < |log| - 1 {
      LastDeathSince(log[..|log| - 1], i);
    }
  }

  /** A transport that dies again within ten minutes of a redial is demoted, and its death leaves the
      cooldown standing: the early return is given once. */
  lemma DyingAgainKeepsTheCooldown(events: seq<Event>, r: Run, i: nat, j: nat)
    requires Runs(START, events, r) && i < j < |r.log| && r.log[i].Death? && r.log[j].Death?
    requires forall k :: i < k < j ==> !r.log[k].Death?
    requires !r.log[i].demoted
    ensures Lifts(r.log[j]) <==> r.log[j].kind != r.log[i].kind || r.log[j].now - r.log[i].now >= FLAP_WINDOW
  {
    RunsKeepInv(START, events, r);
    assert Earned(r.log, j);
    assert forall k :: 0 <= k < j ==> r.log[..j][k] == r.log[k];
    LastDeathSince(r.log[..j], i);
  }

  ghost predicate RebuiltTwice(events: seq<Event>, r: Run, early: nat) {
    && Runs(START, events, r) && |r.log| == 5
    && IsVerdict(r.log[1]) && IsVerdict(r.log[4]) && r.log[4].at.checked == r.log[1].at.booked + early
    && (forall e :: e in events ==> e.Missed? || e.NoteDead?)
  }

  /** Neither a deferral nor the end of a session is needed: the redial of a transport that just died
      lifts the cooldown too, so two verdicts can come as close as the clock allows. */
  lemma RedialComesBackEarly(kind: string, early: nat)
    ensures exists events, r :: RebuiltTwice(events, r, early)
  {
    var first, again := Missed(Reading(0, 0, 0)), Missed(Reading(early, early, early));
    var events := [first, first, NoteDead(kind, 0), again, again];
    var r1 := Next(START, first);
    var r2 := Next(r1, first);
    var r3 := Next(r2, NoteDead(kind, 0));
    var r4 := Next(r3, again);
    var r5 := Next(r4, again);
    assert events[1..] == [first, NoteDead(kind, 0), again, again];
    assert events[1..][1..] == [NoteDead(kind, 0), again, again];
    assert events[1..][1..][1..] == [again, again];
    assert events[1..][1..][1..][1..] == [again];
    assert Runs(r5, [], r5);
    assert Runs(r4, [again], r5);
    assert Runs(r3, [again, again], r5) by { assert [again, again][1..] == [again]; }
    assert RebuiltTwice(events, r5, early);
  }

  // ---- One round ----

  /** How one resolver's query ends. */
  datatype Outcome = Reply | ConnRefused | Oversized | Inconclusive | NotReady | Unanswered

  /** Only a round trip proves the tunnel: a reply, a refused port, a reply too large to read. */
  predicate Proves(o: Outcome) {
    o.Reply? || o.ConnRefused? || o.Oversized?
  }

  /** One round's resolvers, from a random member on and round. */
  function ProbeServerOrder(servers: seq<string>, start: nat): (order: seq<string>)
    requires start < |servers|
    ensures |order| == if |servers| < PROBE_SERVERS then |servers| else PROBE_SERVERS
    ensures forall i :: 0 <= i < |order| ==> order[i] == servers[if start + i < |servers| then start + i else start + i - |servers|]
  {
    var turned := servers[start..] + servers[..start];
    if |turned| > PROBE_SERVERS then turned[..PROBE_SERVERS] else turned
  }

  /** What the round meets: its resolvers and how each answers, whether the probed profile is still the
      live one, and the peer's received bytes before and after, where known. */
  datatype Round = Round(
    servers: seq<string>,
    start: nat,
    outcome: string -> Outcome,
    current: bool,
    rxBefore: Option<int>,
    rxAfter: Option<int>,
    rescueAt: int,
    now: int,
    next: int,
    at: Reading)

  ghost predicate Sound(r: Round) {
    (r.servers != [] ==> r.start < |r.servers|) && r.at.began <= r.at.checked <= r.at.booked
  }

  /** The peer sent enough meanwhile to show that the host swallowed the reply. */
  predicate Rescued(r: Round) {
    r.rxBefore.Some? && r.rxAfter.Some? && r.rxAfter.value - r.rxBefore.value >= RESCUE_BYTES
  }

  ghost predicate SettledAt(order: seq<string>, outcome: string -> Outcome, o: Outcome, i: int) {
    0 <= i < |order| && outcome(order[i]) == o && forall k :: 0 <= k < i ==> outcome(order[k]).Unanswered?
  }

  /** What the resolvers tried in turn come to: the first outcome that settles the round, or none. */
  ghost predicate Settles(order: seq<string>, outcome: string -> Outcome, settled: Option<Outcome>) {
    if settled.None? then forall i :: 0 <= i < |order| ==> outcome(order[i]).Unanswered?
    else !settled.value.Unanswered? && exists i :: SettledAt(order, outcome, settled.value, i)
  }

  method TryResolvers(order: seq<string>, outcome: string -> Outcome) returns (settled: Option<Outcome>)
    ensures Settles(order, outcome, settled)
  {
    for i := 0 to |order|
      invariant forall k :: 0 <= k < i ==> outcome(order[k]).Unanswered?
    {
      var o := outcome(order[i]);
      if !o.Unanswered? {
        assert SettledAt(order, outcome, o, i);
        return Some(o);
      }
    }
    settled := None;
  }

  /** What a round that is due makes of the schedule, and whether it is a verdict; `order` was asked and
      `settled` is what that came to. */
  function Judged(p: Probe, round: Round, settled: Option<Outcome>): (Probe, bool) {
    var claimed := After(p, Claim(round.now, round.next));
    if settled.Some? then (if Proves(settled.value) then Forgiven(claimed) else claimed, false)
    else if !round.current then (claimed, false)
    else if Rescued(round) then (RescueLogged(Forgiven(claimed), round.rescueAt).0, false)
    else RecordFailure(claimed, round.at)
  }

  /** Every query went unanswered, for the profile still live. */
  ghost predicate WentSilent(round: Round, order: seq<string>) {
    round.current && forall i :: 0 <= i < |order| ==> round.outcome(order[i]).Unanswered?
  }

  /** A silent round counts as a miss exactly when the peer is not known to have sent 256 bytes or more
      meanwhile: enough misses, outside the cooldown, are the verdict. With such a gain the misses are
      forgiven and nothing is dead. */
  lemma SilentRoundIsJudgedByTheGain(p: Probe, round: Round, order: seq<string>, settled: Option<Outcome>)
    requires Settles(order, round.outcome, settled) && WentSilent(round, order)
    ensures var (q, dead) := Judged(p, round, settled);
      if round.rxBefore.Some? && round.rxAfter.Some? && round.rxAfter.value - round.rxBefore.value >= 256
      then !dead && q.failures == 0 && q.quietUntil == p.quietUntil
      else
        var window := p.resumeFreshUntil.Some? && round.at.began < p.resumeFreshUntil.value;
        var enough := p.failures + 1 >= if window then 1 else 2;
        var quiet := p.quietUntil.Some? && round.at.checked < p.quietUntil.value;
        && (dead <==> enough && !quiet)
        && q.failures == (if enough then 0 else p.failures + 1)
        && q.quietUntil == if dead then Some(round.at.booked + 300_000) else p.quietUntil
    ensures p.nextAt.None? || round.now >= p.nextAt.value ==> Judged(p, round, settled).0.nextAt == Some(round.next)
  {
  }

  /** When the next round is due after each of the other calls, and what they do to recovery. */
  lemma ScheduleAfterCalls(p: Probe, now: int, next: int, kind: string)
    ensures After(p, Reset(next)).nextAt == Some(next) && After(p, Hasten).nextAt == None && After(p, EndSession).nextAt == None
    ensures After(p, Hold(now, next)).nextAt == Some(next) && After(p, Hold(now, next)).healthHoldUntil == Some(now)
    ensures var r := After(p, Resume(now));
      if p.resumeNotedAt.Some? && now - p.resumeNotedAt.value < 10_000 then r == p
      else r.nextAt == Some(now + 15_000) && r.healthHoldUntil == Some(now + 15_000) && r.recoveryAttempts == 0 && r.recoveryNextAt == None
    ensures After(p, Hold(now, next)).recoveryAttempts == 0 && After(p, Hold(now, next)).recoveryNextAt == None
    ensures var again := kind == p.lastDeadKind && p.lastDeadAt.Some? && now - p.lastDeadAt.value < 600_000;
      After(p, NoteDead(kind, now)).recoveryLead == Some(Lead(kind, again))
    ensures After(p, EndSession).rescueLoggedAt == None
    ensures var due := p.rescueLoggedAt.None? || now >= p.rescueLoggedAt.value + 600_000;
      RescueLogged(p, now) == (if due then p.(rescueLoggedAt := Some(now)) else p, due)
  {
  }

  /** A reply, a refused port or a reply too large to read forgives the misses; a cancelled or unsent
      query, or a profile no longer live, proves nothing either way. */
  lemma OtherRoundsAreNoVerdict(p: Probe, round: Round, order: seq<string>, settled: Option<Outcome>, i: nat)
    requires Settles(order, round.outcome, settled)
    requires i < |order| && forall k :: 0 <= k < i ==> round.outcome(order[k]).Unanswered?
    ensures var (q, dead) := Judged(p, round, settled);
      var o := round.outcome(order[i]);
      && (o == Reply || o == ConnRefused || o == Oversized ==> !dead && q.failures == 0 && q.quietUntil == p.quietUntil)
      && (o == Inconclusive || o == NotReady ==> !dead && q.failures == p.failures && q.quietUntil == p.quietUntil)
    ensures var (q, dead) := Judged(p, round, settled);
      settled.None? && !round.current ==> !dead && q.failures == p.failures && q.quietUntil == p.quietUntil
  {
    var o := round.outcome(order[i]);
    if !o.Unanswered? {
      assert SettledAt(order, round.outcome, o, i);
    }
  }

  class Service {
    var failures: int
    var nextAt: Option<int>
    var quietUntil: Option<int>
    var resumeNotedAt: Option<int>
    var resumeFreshUntil: Option<int>
    var lastDeadKind: string
    var lastDeadAt: Option<int>
    var rescueLoggedAt: Option<int>
    var healthHoldUntil: Option<int>
    var recoveryAttempts: int
    var recoveryNextAt: Option<int>
    var recoveryLead: Option<Lead>

    ghost function State(): Probe
      reads this
    {
      Probe(failures, nextAt, quietUntil, resumeNotedAt, resumeFreshUntil, lastDeadKind, lastDeadAt,
        rescueLoggedAt, healthHoldUntil, recoveryAttempts, recoveryNextAt, recoveryLead)
    }

    constructor ()
      ensures State() == NEW_SESSION
    {
      failures, nextAt, quietUntil, resumeNotedAt, resumeFreshUntil := 0, None, None, None, None;
      lastDeadKind, lastDeadAt, rescueLoggedAt := "", None, None;
      healthHoldUntil, recoveryAttempts, recoveryNextAt, recoveryLead := None, 0, None, None;
    }

    method Due(now: int, next: int) returns (due: bool)
      modifies this`nextAt
      ensures due <==> !Before(now, old(nextAt))
      ensures State() == After(old(State()), Claim(now, next))
    {
      due := !Before(now, nextAt);
      if due {
        nextAt := Some(next);
      }
    }

    method RecordSuccess()
      modifies this`failures
      ensures State() == After(old(State()), Answered)
    {
      failures := 0;
    }

    method RecordMiss(at: Reading) returns (count: int, rebuild: bool)
      modifies this
      ensures (State(), rebuild) == RecordFailure(old(State()), at) && count == old(failures) + 1
    {
      failures := failures + 1;
      count := failures;
      var threshold := FAILURES_BEFORE_REBUILD;
      if Before(at.began, resumeFreshUntil) {
        threshold := 1;
      }
      if failures < threshold {
        return count, false;
      }
      failures := 0;
      if Before(at.checked, quietUntil) {
        return count, false;
      }
      quietUntil := Some(at.booked + REBUILD_COOLDOWN);
      rebuild := true;
    }

    method DeferRebuild()
      modifies this
      ensures State() == After(old(State()), Defer)
    {
      failures := 0;
      quietUntil := None;
    }

    method ResetProbe(next: int)
      modifies this
      ensures State() == After(old(State()), Reset(next))
    {
      failures := 0;
      nextAt := Some(next);
    }

    method EndProbeSession()
      modifies this
      ensures State() == After(old(State()), EndSession)
    {
      failures := 0;
      nextAt, quietUntil, rescueLoggedAt := None, None, None;
    }

    method HoldHealthChecks(until: int, next: int)
      modifies this
      ensures State() == After(old(State()), Hold(until, next))
    {
      healthHoldUntil := Some(until);
      recoveryAttempts, recoveryNextAt := 0, None;
      failures := 0;
      nextAt := Some(next);
    }

    method RescueLogDue(now: int) returns (due: bool)
      modifies this`rescueLoggedAt
      ensures (State(), due) == RescueLogged(old(State()), now)
    {
      if rescueLoggedAt.Some? && now < rescueLoggedAt.value + RESCUE_LOG_INTERVAL {
        return false;
      }
      rescueLoggedAt := Some(now);
      due := true;
    }

    method OnSystemResume(now: int)
      modifies this
      ensures State() == After(old(State()), Resume(now))
    {
      if resumeNotedAt.Some? && now - resumeNotedAt.value < RESUME_DEDUPE {
        return;
      }
      resumeNotedAt := Some(now);
      resumeFreshUntil := Some(now + RESUME_FRESH);
      HoldHealthChecks(now + RESUME_SETTLE, now + RESUME_SETTLE);
      quietUntil := None;
    }

    method NoteDeadTransport(kind: string, now: int) returns (demote: bool)
      modifies this
      ensures State() == After(old(State()), NoteDead(kind, now)) && demote == Demotes(old(State()), kind, now)
    {
      demote := kind == lastDeadKind && lastDeadAt.Some? && now - lastDeadAt.value < FLAP_WINDOW;
      recoveryLead := Some(Lead(kind, demote));
      if demote {
        lastDeadKind, lastDeadAt := "", None;
        return;
      }
      lastDeadKind, lastDeadAt := kind, Some(now);
      quietUntil := None;
    }

    /** Dead only when every resolver tried went unanswered, for the profile still live, the peer stayed
        silent, and the rounds missed so far make it a verdict; a round that proves the tunnel forgives,
        and one that proves nothing changes nothing but the schedule. */
    method DataPathIsDead(round: Round) returns (dead: bool, ghost order: seq<string>, ghost settled: Option<Outcome>)
      requires Sound(round)
      modifies this
      ensures dead ==> WentSilent(round, order)
      ensures dead && round.rxBefore.Some? && round.rxAfter.Some? ==> round.rxAfter.value - round.rxBefore.value < 256
      ensures round.servers != [] ==> order == ProbeServerOrder(round.servers, round.start)
      ensures if round.servers == [] || (old(nextAt).Some? && round.now < old(nextAt).value) then !dead && State() == old(State())
        else Settles(order, round.outcome, settled) && (State(), dead) == Judged(old(State()), round, settled)
    {
      order, settled := [], None;
      if round.servers == [] {
        return false, [], None;
      }
      order := ProbeServerOrder(round.servers, round.start);
      var due := Due(round.now, round.next);
      if !due {
        return false, order, None;
      }
      var met := TryResolvers(ProbeServerOrder(round.servers, round.start), round.outcome);
      settled := met;
      if met.Some? {
        if Proves(met.value) {
          RecordSuccess();
        }
        return false, order, settled;
      }
      if !round.current {
        return false, order, settled;
      }
      if Rescued(round) {
        RecordSuccess();
        var logged := RescueLogDue(round.rescueAt);
        return false, order, settled;
      }
      var count: int;
      count, dead := RecordMiss(round.at);
    }
  }

  // ---- The gate of a bring-up ----

  /** One query of the gate: whether the bring-up was torn down while waiting for it, how a query to each
      resolver would end, whether the bring-up was torn down by then, and when. */
  datatype Try = Try(cancelled: bool, outcome: string -> Outcome, ended: bool, at: int)

  datatype Gate = Carries | TornDown | Rejected | Waiting

  const GATE_ATTEMPTS := 2

  /** How many of the first `n` queries went unanswered. */
  function Unanswereds(order: seq<string>, tries: seq<Try>, n: nat): nat
    requires order != [] && n <= |tries|
    decreases n, 1
  {
    if n == 0 then 0
    else Unanswereds(order, tries, n - 1) + if Ended(order, tries, n - 1).Unanswered? then 1 else 0
  }

  /** The resolver query `n` asks: they take turns, one for each query gone unanswered. */
  function Asked(order: seq<string>, tries: seq<Try>, n: nat): string
    requires order != [] && n < |tries|
    decreases n, 2
  {
    order[Unanswereds(order, tries, n) % |order|]
  }

  function Ended(order: seq<string>, tries: seq<Try>, n: nat): Outcome
    requires order != [] && n < |tries|
    decreases n, 3
  {
    tries[n].outcome(Asked(order, tries, n))
  }

  lemma NoQueryYet(order: seq<string>, tries: seq<Try>)
    requires order != []
    ensures Unanswereds(order, tries, 0) == 0
  {
  }

  lemma NextQuery(order: seq<string>, tries: seq<Try>, n: nat)
    requires order != [] && n < |tries|
    ensures Ended(order, tries, n) == tries[n].outcome(order[Unanswereds(order, tries, n) % |order|])
    ensures Unanswereds(order, tries, n + 1) == Unanswereds(order, tries, n) + if Ended(order, tries, n).Unanswered? then 1 else 0
  {
  }

  /** A query that leaves the gate waiting: unanswered, or not sent before the deadline. */
  predicate LeavesWaiting(o: Outcome, at: int, deadline: int) {
    o.Unanswered? || (o.NotReady? && at < deadline)
  }

  /** What the query after `n` that left the gate waiting comes to. */
  function Settled(order: seq<string>, tries: seq<Try>, n: nat, rescued: bool): Gate
    requires order != [] && n <= |tries|
  {
    if Unanswereds(order, tries, n) == GATE_ATTEMPTS then if rescued then Carries else Rejected
    else if n == |tries| then Waiting
    else if n > 0 && tries[n].cancelled then TornDown
    else if Proves(Ended(order, tries, n)) then Carries
    else if Ended(order, tries, n).Inconclusive? then if tries[n].ended then TornDown else Carries
    else Rejected
  }

  /** What the gate answers, read off the query it stopped at: a round trip carries, and two silent queries
      carry only if the peer was heard from; a query that ended for another reason carries unless the
      bring-up was torn down, and one that could not be sent rejects. */
  lemma GateAnswers(order: seq<string>, tries: seq<Try>, n: nat, rescued: bool)
    requires order != [] && n <= |tries|
    ensures var gate := Settled(order, tries, n, rescued);
      if Unanswereds(order, tries, n) == 2 then gate == (if rescued then Carries else Rejected)
      else if n == |tries| then gate == Waiting
      else if n > 0 && tries[n].cancelled then gate == TornDown
      else match Ended(order, tries, n) {
        case Reply => gate == Carries
        case ConnRefused => gate == Carries
        case Oversized => gate == Carries
        case Inconclusive => gate == if tries[n].ended then TornDown else Carries
        case NotReady => gate == Rejected
        case Unanswered => gate == Rejected
      }
  {
    hide Unanswereds, Ended;
  }

  /** A candidate must carry a round trip, not just handshake: it is rejected only by two queries that
      went unanswered while the peer stayed silent, or by an adapter not ready at the deadline. The
      resolvers of the session are asked in turn, the next one after each query gone unanswered. */
  method ProveDataPath(servers: seq<string>, start: nat, tries: seq<Try>, deadline: int, rescued: bool) returns (gate: Gate, ghost n: nat)
    requires servers != [] ==> start < |servers|
    ensures servers == [] ==> gate == Carries
    ensures servers != [] ==>
      var order := ProbeServerOrder(servers, start);
      && n <= |tries|
      && (forall i :: 0 <= i < n ==>
           LeavesWaiting(Ended(order, tries, i), tries[i].at, deadline) && (i > 0 ==> !tries[i].cancelled))
      && Unanswereds(order, tries, n) <= GATE_ATTEMPTS && gate == Settled(order, tries, n, rescued)
      && (gate.Rejected? && Unanswereds(order, tries, n) < GATE_ATTEMPTS ==>
           n < |tries| && Ended(order, tries, n).NotReady? && tries[n].at >= deadline)
  {
    if servers == [] {
      return Carries, 0;
    }
    hide Unanswereds, Ended, Asked;
    var order := ProbeServerOrder(servers, start);
    assert Unanswereds(order, tries, 0) == 0 by { NoQueryYet(order, tries); }
    var attempt, i: nat := 0, 0;
    while attempt < GATE_ATTEMPTS && i < |tries|
      invariant i <= |tries| && attempt == Unanswereds(order, tries, i) <= GATE_ATTEMPTS
      invariant forall k :: 0 <= k < i ==>
        LeavesWaiting(Ended(order, tries, k), tries[k].at, deadline) && (k > 0 ==> !tries[k].cancelled)
      decreases |tries| - i
    {
      var t := tries[i];
      NextQuery(order, tries, i);
      if i > 0 && t.cancelled {
        return TornDown, i;
      }
      var server := order[attempt % |order|];
      var o := t.outcome(server);
      if Proves(o) {
        return Carries, i;
      }
      if o.Inconclusive? {
        return if t.ended then TornDown else Carries, i;
      }
      if o.NotReady? {
        if t.at >= deadline {
          return Rejected, i;
        }
      } else {
        attempt := attempt + 1;
      }
      i := i + 1;
    }
    n := i;
    gate := if attempt < GATE_ATTEMPTS then Waiting else if rescued then Carries else Rejected;
  }
}
