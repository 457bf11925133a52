/** AlertPolicy: which connection alerts a tunnel event deserves, and what the notification centre
    shows over a whole run of events. */
module Alerts {
  import opened Support
  import opened Lifecycle

  datatype Kind = ConnectedKind | LostKind | RestoredKind | BlockedKind

  datatype Action = Post(kind: Kind) | Remove(kinds: set<Kind>) | ScheduleLost(after: real) | CancelLost

  /** `allows` is "alerts enabled and the app not in the foreground". */
  datatype Gate = Gate(enabled: bool, appInForeground: bool) {
    predicate Allows() { enabled && !appInForeground }
  }

  datatype Memory = Memory(lostPending: bool, outageShown: bool, blockedShown: bool)

  const LOST_DELAY: real := 10.0
  const Forgotten := Memory(false, false, false)
  const OutageKinds := {LostKind, BlockedKind}

  // ---- The decisions as functions ----

  function CancelPending(m: Memory): (Memory, seq<Action>) {
    if m.lostPending then (m.(lostPending := false), [CancelLost]) else (m, [])
  }

  function Decided(m: Memory, e: TunnelEvent, gate: Gate): (Memory, seq<Action>) {
    match e
    case TunnelReconnecting =>
      if m.lostPending || m.outageShown then (m, [])
      else (m.(lostPending := true), [ScheduleLost(LOST_DELAY)])
    case Restored => Recovered(m, gate, None)
    case Connected => Recovered(m, gate, Some(ConnectedKind))
    case Blocked(_) =>
      var (c, cancelled) := CancelPending(m);
      if c.blockedShown || !gate.Allows() then (c, cancelled)
      else (c.(blockedShown := true, outageShown := true), cancelled + [Remove({LostKind}), Post(BlockedKind)])
    case TunnelStopped => (Forgotten, CancelPending(m).1 + [Remove(OutageKinds)])
  }

  function Recovered(m: Memory, gate: Gate, otherwise: Option<Kind>): (Memory, seq<Action>) {
    var cancelled := CancelPending(m).1;
    var removed := if m.outageShown || otherwise.Some? then cancelled + [Remove(OutageKinds)] else cancelled;
    var alert := if m.outageShown then Some(RestoredKind) else otherwise;
    (Forgotten, if gate.Allows() && alert.Some? then removed + [Post(alert.value)] else removed)
  }

  function LostElapsed(m: Memory, gate: Gate): (Memory, seq<Action>) {
    if !m.lostPending then (m, [])
    else if !gate.Allows() then (m.(lostPending := false), [])
    else (Memory(false, true, m.blockedShown), [Post(LostKind)])
  }

  // ---- The object ----

  class AlertPolicy {
    var lostPending: bool
    var outageShown: bool
    var blockedShown: bool

    function Remembered(): Memory
      reads this
    {
      Memory(lostPending, outageShown, blockedShown)
    }

    constructor ()
      ensures Remembered() == Forgotten
    {
      lostPending, outageShown, blockedShown := false, false, false;
    }

    method Decide(e: TunnelEvent, gate: Gate) returns (actions: seq<Action>)
      modifies this
      ensures (Remembered(), actions) == Decided(old(Remembered()), e, gate)
    {
      match e
      case TunnelReconnecting => actions := BeginRecovering();
      case Restored => actions := Recover(gate, None);
      case Connected => actions := Recover(gate, Some(ConnectedKind));
      case Blocked(_) => actions := Block(gate);
      case TunnelStopped =>
        actions := CancelPendingLost();
        Reset();
        actions := actions + [Remove(OutageKinds)];
    }

    method LostDelayElapsed(gate: Gate) returns (actions: seq<Action>)
      modifies this
      ensures (Remembered(), actions) == LostElapsed(old(Remembered()), gate)
    {
      if !lostPending {
        return [];
      }
      lostPending := false;
      if !gate.Allows() {
        return [];
      }
      outageShown := true;
      actions := [Post(LostKind)];
    }

    method BeginRecovering() returns (actions: seq<Action>)
      modifies this
      ensures (Remembered(), actions) == Decided(old(Remembered()), TunnelReconnecting, Gate(false, false))
    {
      if lostPending || outageShown {
        return [];
      }
      lostPending := true;
      actions := [ScheduleLost(LOST_DELAY)];
    }

    method Block(gate: Gate) returns (actions: seq<Action>)
      modifies this
      ensures forall reason :: (Remembered(), actions) == Decided(old(Remembered()), Blocked(reason), gate)
    {
      actions := CancelPendingLost();
      if !blockedShown && gate.Allows() {
        blockedShown := true;
        outageShown := true;
        actions := actions + [Remove({LostKind}), Post(BlockedKind)];
      }
    }

    method Recover(gate: Gate, otherwise: Option<Kind>) returns (actions: seq<Action>)
      modifies this
      ensures (Remembered(), actions) == Recovered(old(Remembered()), gate, otherwise)
    {
      var announced := outageShown;
      actions := CancelPendingLost();
      Reset();
      if announced || otherwise.Some? {
        actions := actions + [Remove(OutageKinds)];
      }
      var alert := if announced then Some(RestoredKind) else otherwise;
      if gate.Allows() && alert.Some? {
        actions := actions + [Post(alert.value)];
      }
    }

    method CancelPendingLost() returns (actions: seq<Action>)
      modifies this
      ensures (Remembered(), actions) == CancelPending(old(Remembered()))
    {
      actions := [];
      if lostPending {
        lostPending := false;
        actions := [CancelLost];
      }
    }

    method Reset()
      modifies this
      ensures Remembered() == Forgotten
    {
      lostPending, outageShown, blockedShown := false, false, false;
    }
  }

  // ---- Runs ----

  /** The policy beside what its actions made of the notification centre and the lost timer.
      `shown` records, oldest first, the events heard and the alerts posted. */
  datatype Board = Board(memory: Memory, displayed: set<Kind>, timer: bool, history: seq<Note>)

  datatype Note = Heard(event: TunnelEvent) | Posted(kind: Kind)

  /** `Dismiss` is the user clearing an alert; `Elapse` is the lost timer going off. */
  datatype Turn = Event(event: TunnelEvent, gate: Gate) | Elapse(gate: Gate) | Dismiss(kind: Kind)

  function Act(b: Board, action: Action): Board {
    match action
    case Post(kind) => b.(displayed := b.displayed + {kind}, history := b.history + [Posted(kind)])
    case Remove(kinds) => b.(displayed := b.displayed - kinds)
    case ScheduleLost(_) => b.(timer := true)
    case CancelLost => b.(timer := false)
  }

  function Perform(b: Board, actions: seq<Action>): Board
    decreases |actions|
  {
    if actions == [] then b else Perform(Act(b, actions[0]), actions[1..])
  }

  function After(b: Board, t: Turn): Board {
    match t
    case Event(e, gate) =>
      var (m, actions) := Decided(b.memory, e, gate);
      Perform(b.(memory := m, history := b.history + [Heard(e)]), actions)
    case Elapse(gate) =>
      if b.timer then
        var (m, actions) := LostElapsed(b.memory, gate);
        Perform(b.(memory := m, timer := false), actions)
      else b
    case Dismiss(kind) => b.(displayed := b.displayed - {kind})
  }

  function AfterAll(b: Board, turns: seq<Turn>): Board
    decreases |turns|
  {
    if turns == [] then b else AfterAll(After(b, turns[0]), turns[1..])
  }

  /** A fresh policy in a process that finds `leftover` alerts from an earlier one. */
  function Launched(leftover: set<Kind>): Board {
    Board(Forgotten, leftover, false, [])
  }

  ghost predicate Ends(n: Note) {
    n.Heard? && (n.event.Connected? || n.event.Restored? || n.event.TunnelStopped?)
  }

  ghost predicate TellsOutage(n: Note) {
    n == Posted(LostKind) || n == Posted(BlockedKind)
  }

  /** An outage alert was posted, and nothing has ended that outage since. */
  ghost predicate OutageTold(history: seq<Note>) {
    exists i :: 0 <= i < |history| && TellsOutage(history[i]) && forall k :: i < k < |history| ==> !Ends(history[k])
  }

  ghost predicate Consistent(b: Board) {
    && (b.timer <==> b.memory.lostPending)
    && (b.memory.lostPending ==> !b.memory.outageShown)
    && (b.memory.blockedShown ==> b.memory.outageShown)
    && (b.memory.outageShown <==> OutageTold(b.history))
  }

  /** A blocked alert on the screen is one this run posted, alone. */
  ghost predicate Unmixed(b: Board) {
    BlockedKind in b.displayed ==> b.memory.blockedShown && LostKind !in b.displayed
  }

  /** While no outage is told, an outage alert on the screen was there at launch. */
  ghost predicate OnlyLeftover(b: Board, leftover: set<Kind>) {
    !b.memory.outageShown ==> b.displayed * OutageKinds <= leftover
  }

  lemma OutageToldSnoc(history: seq<Note>, n: Note)
    ensures OutageTold(history + [n]) <==> TellsOutage(n) || (OutageTold(history) && !Ends(n))
  {
    var more := history + [n];
    if OutageTold(history) && !Ends(n) {
      var i :| 0 <= i < |history| && TellsOutage(history[i]) && forall k :: i < k < |history| ==> !Ends(history[k]);
      assert TellsOutage(more[i]);
    }
    if TellsOutage(n) {
      assert TellsOutage(more[|history|]);
    }
    if OutageTold(more) {
      var i :| 0 <= i < |more| && TellsOutage(more[i]) && forall k :: i < k < |more| ==> !Ends(more[k]);
      if i < |history| {
        assert TellsOutage(history[i]) && !Ends(more[|history|]);
        assert forall k :: i < k < |history| ==> history[k] == more[k];
      }
    }
  }

  lemma {:induction false} PerformConcat(b: Board, first: seq<Action>, then_: seq<Action>)
    ensures Perform(b, first + then_) == Perform(Perform(b, first), then_)
    decreases |first|
  {
    if first == [] {
      assert first + then_ == then_;
    } else {
      assert (first + then_)[1..] == first[1..] + then_;
      PerformConcat(Act(b, first[0]), first[1..], then_);
    }
  }

  lemma PerformOne(b: Board, action: Action)
    ensures Perform(b, [action]) == Act(b, action)
  {
    assert [action][1..] == [];
  }

  lemma CancelPerformed(b: Board)
    requires b.timer <==> b.memory.lostPending
    ensures forall m, h :: Perform(b.(memory := m, history := h), CancelPending(b.memory).1)
                        == b.(memory := m, history := h, timer := false)
  {
    forall m, h { PerformOne(b.(memory := m, history := h), CancelLost); }
  }

  /** Coming up or stopping: the timer is off, and unless there was nothing to announce both outage
      alerts are cleared before the new one is posted. */
  lemma RecoverPerformed(b: Board, m: Memory, history: seq<Note>, gate: Gate, otherwise: Option<Kind>)
    requires b.timer <==> b.memory.lostPending
    ensures var (_, actions) := Recovered(b.memory, gate, otherwise);
      var alert := if b.memory.outageShown then Some(RestoredKind) else otherwise;
      var cleared := if alert.Some? then b.displayed - OutageKinds else b.displayed;
      Perform(b.(memory := m, history := history), actions) ==
        if gate.Allows() && alert.Some?
        then Board(m, cleared + {alert.value}, false, history + [Posted(alert.value)])
        else Board(m, cleared, false, history)
  {
    var c := CancelPending(b.memory).1;
    var start := b.(memory := m, history := history);
    CancelPerformed(b);
    var alert := if b.memory.outageShown then Some(RestoredKind) else otherwise;
    if alert.Some? {
      PerformConcat(start, c, [Remove(OutageKinds)]);
      PerformConcat(start, c + [Remove(OutageKinds)], [Post(alert.value)]);
      PerformOne(Perform(start, c), Remove(OutageKinds));
      PerformOne(Perform(start, c + [Remove(OutageKinds)]), Post(alert.value));
    }
  }

  lemma BlockPerformed(b: Board, m: Memory, history: seq<Note>)
    requires b.timer <==> b.memory.lostPending
    ensures Perform(b.(memory := m, history := history), CancelPending(b.memory).1 + [Remove({LostKind}), Post(BlockedKind)])
      == Board(m, b.displayed - {LostKind} + {BlockedKind}, false, history + [Posted(BlockedKind)])
  {
    var c := CancelPending(b.memory).1;
    var start := b.(memory := m, history := history);
    CancelPerformed(b);
    PerformConcat(start, c, [Remove({LostKind}), Post(BlockedKind)]);
    assert [Remove({LostKind}), Post(BlockedKind)][1..] == [Post(BlockedKind)];
    PerformOne(Act(Perform(start, c), Remove({LostKind})), Post(BlockedKind));
  }

  lemma StopPerformed(b: Board, m: Memory, history: seq<Note>)
    requires b.timer <==> b.memory.lostPending
    ensures Perform(b.(memory := m, history := history), CancelPending(b.memory).1 + [Remove(OutageKinds)])
      == Board(m, b.displayed - OutageKinds, false, history)
  {
    CancelPerformed(b);
    PerformConcat(b.(memory := m, history := history), CancelPending(b.memory).1, [Remove(OutageKinds)]);
    PerformOne(b.(memory := m, history := history, timer := false), Remove(OutageKinds));
  }

  lemma EventKeeps(b: Board, e: TunnelEvent, gate: Gate, leftover: set<Kind>)
    requires Consistent(b)
    ensures var a := After(b, Event(e, gate)); Consistent(a) && (Unmixed(b) ==> Unmixed(a)) && (OnlyLeftover(b, leftover) ==> OnlyLeftover(a, leftover))
  {
    hide OutageTold;
    var heard := b.history + [Heard(e)];
    OutageToldSnoc(b.history, Heard(e));
    match e
    case TunnelReconnecting => PerformOne(b.(memory := b.memory.(lostPending := true), history := heard), ScheduleLost(LOST_DELAY));
    case Restored => RecoverPerformed(b, Forgotten, heard, gate, None); OutageToldSnoc(heard, Posted(RestoredKind));
    case Connected =>
      RecoverPerformed(b, Forgotten, heard, gate, Some(ConnectedKind));
      OutageToldSnoc(heard, Posted(RestoredKind));
      OutageToldSnoc(heard, Posted(ConnectedKind));
    case Blocked(_) =>
      CancelPerformed(b);
      BlockPerformed(b, Memory(false, true, true), heard);
      OutageToldSnoc(heard, Posted(BlockedKind));
    case TunnelStopped => StopPerformed(b, Forgotten, heard);
  }

  lemma AfterKeeps(b: Board, t: Turn, leftover: set<Kind>)
    requires Consistent(b)
    ensures var a := After(b, t); Consistent(a) && (Unmixed(b) ==> Unmixed(a)) && (OnlyLeftover(b, leftover) ==> OnlyLeftover(a, leftover))
  {
    hide OutageTold;
    match t
    case Event(e, gate) => EventKeeps(b, e, gate, leftover);
    case Elapse(gate) =>
      OutageToldSnoc(b.history, Posted(LostKind));
      PerformOne(b.(memory := LostElapsed(b.memory, gate).0, timer := false), Post(LostKind));
    case Dismiss(_) =>
  }

  lemma {:induction false} RunKeeps(b: Board, turns: seq<Turn>, leftover: set<Kind>)
    requires Consistent(b)
    ensures var a := AfterAll(b, turns); Consistent(a) && (Unmixed(b) ==> Unmixed(a)) && (OnlyLeftover(b, leftover) ==> OnlyLeftover(a, leftover))
    decreases |turns|
  {
    hide Consistent, Unmixed, OnlyLeftover, After;
    if turns != [] {
      AfterKeeps(b, turns[0], leftover);
      RunKeeps(After(b, turns[0]), turns[1..], leftover);
    }
  }

  lemma LaunchedConsistent(leftover: set<Kind>)
    ensures Consistent(Launched(leftover))
    ensures BlockedKind !in leftover ==> Unmixed(Launched(leftover))
    ensures OnlyLeftover(Launched(leftover), leftover)
  {
  }

  // ---- Main results ----

  ghost predicate BothDisplayed(b: Board) {
    LostKind in b.displayed && BlockedKind in b.displayed
  }

  /** A lost and a blocked alert are never displayed together, over any run, exactly when no blocked
      alert was left on the screen by an earlier process. */
  lemma NeverLostAndBlocked(leftover: set<Kind>)
    ensures (forall turns :: !BothDisplayed(AfterAll(Launched(leftover), turns))) <==> BlockedKind !in leftover
  {
    if BlockedKind in leftover {
      LeftoverBlockedMeetsLost(leftover);
    } else {
      forall turns ensures !BothDisplayed(AfterAll(Launched(leftover), turns)) {
        hide AfterAll, Consistent;
        LaunchedConsistent(leftover);
        RunKeeps(Launched(leftover), turns, leftover);
      }
    }
  }

  lemma LeftoverBlockedMeetsLost(leftover: set<Kind>)
    requires BlockedKind in leftover
    ensures exists turns :: BothDisplayed(AfterAll(Launched(leftover), turns))
  {
    var open := Gate(true, false);
    var turns := [Event(TunnelReconnecting, open), Elapse(open)];
    assert turns[1..] == [Elapse(open)];
    var start := Launched(leftover);
    PerformOne(start.(memory := Memory(true, false, false), history := [Heard(TunnelReconnecting)]), ScheduleLost(LOST_DELAY));
    var heard: seq<Note> := start.history + [Heard(TunnelReconnecting)];
    assert heard == [Heard(TunnelReconnecting)];
    var one := After(start, turns[0]);
    assert one == Board(Memory(true, false, false), leftover, true, [Heard(TunnelReconnecting)]);
    PerformOne(one.(memory := Memory(false, true, false), timer := false), Post(LostKind));
    assert turns[1..][1..] == [];
    assert AfterAll(one, turns[1..]) == After(one, Elapse(open));
    assert BothDisplayed(AfterAll(start, turns));
  }

  /** A restored alert is posted exactly when the tunnel comes up after an outage the user was told
      of, with alerts allowed. */
  lemma RestoredOnlyAfterTold(leftover: set<Kind>, turns: seq<Turn>, e: TunnelEvent, gate: Gate)
    ensures var b := AfterAll(Launched(leftover), turns);
      Post(RestoredKind) in Decided(b.memory, e, gate).1 <==>
        (e.Connected? || e.Restored?) && OutageTold(b.history) && gate.Allows()
  {
    hide AfterAll, OutageTold;
    LaunchedConsistent(leftover);
    RunKeeps(Launched(leftover), turns, leftover);
  }

  /** Once the tunnel is connected or stopped no outage alert is displayed and none is pending,
      whatever an earlier process left behind. Once it is restored none is pending and none is displayed
      of an outage the user was told of; otherwise the screen is as it was, and every outage alert on it
      was left by an earlier process. */
  lemma NothingStaleAfterRecovery(leftover: set<Kind>, turns: seq<Turn>, e: TunnelEvent, gate: Gate)
    requires e.Connected? || e.TunnelStopped? || e.Restored?
    ensures var b := AfterAll(Launched(leftover), turns);
      var a := After(b, Event(e, gate));
      && !a.timer
      && (if e.Restored? && !OutageTold(b.history) then a.displayed == b.displayed && a.displayed * OutageKinds <= leftover
          else a.displayed !! OutageKinds)
  {
    hide AfterAll, OutageTold;
    LaunchedConsistent(leftover);
    RunKeeps(Launched(leftover), turns, leftover);
    var b := AfterAll(Launched(leftover), turns);
    var heard := b.history + [Heard(e)];
    RecoverPerformed(b, Forgotten, heard, gate, if e.Connected? then Some(ConnectedKind) else None);
    StopPerformed(b, Forgotten, heard);
  }

  /** The lost timer is armed exactly while a lost alert is pending, so a recovery inside the delay
      is never told as an outage. */
  lemma TimerMatchesPending(leftover: set<Kind>, turns: seq<Turn>)
    ensures var b := AfterAll(Launched(leftover), turns);
      (b.timer <==> b.memory.lostPending) && (b.timer ==> !OutageTold(b.history))
  {
    hide AfterAll, OutageTold;
    LaunchedConsistent(leftover);
    RunKeeps(Launched(leftover), turns, leftover);
  }

  // ---- What is posted, and when ----

  /** A blocked alert was posted, and nothing has ended that outage since. */
  ghost predicate BlockedTold(history: seq<Note>) {
    exists i :: 0 <= i < |history| && history[i] == Posted(BlockedKind) && forall k :: i < k < |history| ==> !Ends(history[k])
  }

  lemma BlockedToldSnoc(history: seq<Note>, n: Note)
    ensures BlockedTold(history + [n]) <==> n == Posted(BlockedKind) || (BlockedTold(history) && !Ends(n))
  {
    var more := history + [n];
    if BlockedTold(history) && !Ends(n) {
      var i :| 0 <= i < |history| && history[i] == Posted(BlockedKind) && forall k :: i < k < |history| ==> !Ends(history[k]);
      assert more[i] == Posted(BlockedKind);
    }
    if n == Posted(BlockedKind) {
      assert more[|history|] == n;
    }
    if BlockedTold(more) {
      var i :| 0 <= i < |more| && more[i] == Posted(BlockedKind) && forall k :: i < k < |more| ==> !Ends(more[k]);
      if i < |history| {
        assert history[i] == Posted(BlockedKind) && !Ends(more[|history|]);
        assert forall k :: i < k < |history| ==> history[k] == more[k];
      }
    }
  }

  /** The alert an event deserves with alerts allowed: up after an outage the user was told of is
      restored, else connected; blocked is told once an outage. */
  ghost function Deserved(e: TunnelEvent, outage: bool, blocked: bool): Option<Kind> {
    match e
    case Connected => Some(if outage then RestoredKind else ConnectedKind)
    case Restored => if outage then Some(RestoredKind) else None
    case Blocked(_) => if blocked then None else Some(BlockedKind)
    case TunnelReconnecting => None
    case TunnelStopped => None
  }

  /** An event's alert is posted exactly when alerts are on and the app is away. */
  ghost predicate PostedAs(b: Board, a: Board, e: TunnelEvent, gate: Gate, outage: bool, blocked: bool) {
    var alert := Deserved(e, outage, blocked);
    a.history == b.history + [Heard(e)] + if alert.Some? && gate.enabled && !gate.appInForeground then [Posted(alert.value)] else []
  }

  lemma EventPosts(b: Board, e: TunnelEvent, gate: Gate)
    requires Consistent(b)
    ensures var a := After(b, Event(e, gate));
      && PostedAs(b, a, e, gate, b.memory.outageShown, b.memory.blockedShown)
      && (a.timer <==> e.TunnelReconnecting? && (b.timer || !b.memory.outageShown))
      && (ScheduleLost(10.0) in Decided(b.memory, e, gate).1 <==> e.TunnelReconnecting? && !b.timer && !b.memory.outageShown)
      && (forall after :: ScheduleLost(after) in Decided(b.memory, e, gate).1 ==> after == 10.0)
      && (a.memory.blockedShown <==> !Ends(Heard(e)) && (b.memory.blockedShown || (e.Blocked? && gate.enabled && !gate.appInForeground)))
  {
    hide OutageTold;
    var heard := b.history + [Heard(e)];
    match e
    case TunnelReconnecting => PerformOne(b.(memory := b.memory.(lostPending := true), history := heard), ScheduleLost(LOST_DELAY));
    case Restored => RecoverPerformed(b, Forgotten, heard, gate, None);
    case Connected => RecoverPerformed(b, Forgotten, heard, gate, Some(ConnectedKind));
    case Blocked(_) =>
      CancelPerformed(b);
      BlockPerformed(b, Memory(false, true, true), heard);
    case TunnelStopped => StopPerformed(b, Forgotten, heard);
  }

  lemma ElapsePosts(b: Board, gate: Gate)
    requires Consistent(b)
    ensures var a := After(b, Elapse(gate));
      && a.history == b.history + (if b.timer && gate.enabled && !gate.appInForeground then [Posted(LostKind)] else [])
      && !a.timer && a.memory.blockedShown == b.memory.blockedShown
  {
    hide OutageTold;
    PerformOne(b.(memory := LostElapsed(b.memory, gate).0, timer := false), Post(LostKind));
  }

  lemma BlockedKeeps(b: Board, t: Turn)
    requires Consistent(b) && (b.memory.blockedShown <==> BlockedTold(b.history))
    ensures var a := After(b, t); a.memory.blockedShown <==> BlockedTold(a.history)
  {
    hide OutageTold, BlockedTold, Consistent;
    match t
    case Event(e, gate) =>
      EventPosts(b, e, gate);
      BlockedToldSnoc(b.history, Heard(e));
      var heard := b.history + [Heard(e)];
      var alert := Deserved(e, b.memory.outageShown, b.memory.blockedShown);
      if alert.Some? {
        BlockedToldSnoc(heard, Posted(alert.value));
      }
      assert heard + [] == heard;
      hide After, Decided;
    case Elapse(gate) =>
      ElapsePosts(b, gate);
      BlockedToldSnoc(b.history, Posted(LostKind));
      assert b.history + [] == b.history;
      hide After;
    case Dismiss(_) =>
  }

  lemma {:induction false} RunKeepsBlocked(b: Board, turns: seq<Turn>)
    requires Consistent(b) && (b.memory.blockedShown <==> BlockedTold(b.history))
    ensures var a := AfterAll(b, turns); a.memory.blockedShown <==> BlockedTold(a.history)
    decreases |turns|
  {
    hide Consistent, BlockedTold, After;
    if turns != [] {
      AfterKeeps(b, turns[0], {});
      BlockedKeeps(b, turns[0]);
      RunKeepsBlocked(After(b, turns[0]), turns[1..]);
    }
  }

  /** Over any run: an event posts the alert it deserves, by what the user was told since the outage began,
      exactly when alerts are on and the app is away, and no other; and the lost delay of ten seconds is
      armed exactly by a reconnect in an outage neither told of nor pending. */
  lemma PostedExactlyWhenDeserved(leftover: set<Kind>, turns: seq<Turn>, e: TunnelEvent, gate: Gate)
    ensures var b := AfterAll(Launched(leftover), turns);
      var a := After(b, Event(e, gate));
      && PostedAs(b, a, e, gate, OutageTold(b.history), BlockedTold(b.history))
      && (a.timer <==> e.TunnelReconnecting? && (b.timer || !OutageTold(b.history)))
      && (forall after :: ScheduleLost(after) in Decided(b.memory, e, gate).1 <==>
            after == 10.0 && e.TunnelReconnecting? && !b.timer && !OutageTold(b.history))
  {
    hide AfterAll, OutageTold, BlockedTold;
    LaunchedConsistent(leftover);
    RunKeeps(Launched(leftover), turns, leftover);
    assert !BlockedTold([]) by { NothingTold(); }
    RunKeepsBlocked(Launched(leftover), turns);
    EventPosts(AfterAll(Launched(leftover), turns), e, gate);
    hide After, Decided, PostedAs;
  }

  lemma NothingTold()
    ensures !BlockedTold([])
  {
  }

  /** Over any run: the lost alert is posted exactly when its delay runs out with alerts allowed. */
  lemma LostExactlyWhenElapsed(leftover: set<Kind>, turns: seq<Turn>, gate: Gate)
    ensures var b := AfterAll(Launched(leftover), turns);
      var a := After(b, Elapse(gate));
      && a.history == b.history + (if b.timer && gate.enabled && !gate.appInForeground then [Posted(LostKind)] else [])
      && !a.timer
  {
    hide AfterAll, OutageTold;
    LaunchedConsistent(leftover);
    RunKeeps(Launched(leftover), turns, leftover);
    ElapsePosts(AfterAll(Launched(leftover), turns), gate);
  }
}
