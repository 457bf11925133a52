/** ReconnectPolicy and CandidateList: what a path change or a failed attempt leads to,
    and which server a recovery is on. Both are Swift structs, so they are values here. */
module Reconnect {
  import opened Support

  datatype StartError =
    | NoServer | SignedOut | NoTunnelInterface | ReconnectFailed | StartStopped | DeviceLocked
    | SubscriptionExpired | ConnectFailed | InvalidDNS | SettingsTimeout | NoSubscription

  /** `Core` is a core error whose text classifies to `code`; `Foreign` is any other error. */
  datatype Error = Start(code: StartError) | Core(code: StartError) | Superseded | Foreign

  datatype Failure = Transient | Locked | Terminal(reason: StartError)

  predicate IsStopped(e: Error) {
    e == Start(StartStopped)
  }

  function Classify(e: Error): Failure {
    match e
    case Start(DeviceLocked) | Core(DeviceLocked) => Locked
    case Start(code) =>
      if code in {SignedOut, SubscriptionExpired, NoSubscription, NoServer} then Terminal(code) else Transient
    case Core(code) =>
      if code in {SignedOut, SubscriptionExpired, NoSubscription, NoServer} then Terminal(code) else Transient
    case Superseded => Transient
    case Foreign => Transient
  }

  const DEBOUNCE: real := 1.5
  const SETTLE_GRACE: real := 5.0
  const STEADY_BACKOFF: real := 30.0
  const TERMINAL_BACKOFF: real := 300.0
  const LOCKED_BACKOFF: real := 5.0
  const ROTATE_EVERY: nat := 3

  function Backoff(attempt: int): real {
    if attempt > 3 then STEADY_BACKOFF
    else if attempt == 3 then 9.0
    else if attempt == 2 then 6.0
    else 3.0
  }

  function Delay(failure: Failure, attempt: int): real {
    match failure
    case Transient => Backoff(attempt)
    case Locked => LOCKED_BACKOFF
    case Terminal(_) => TERMINAL_BACKOFF
  }

  predicate Rotates(attempt: int) {
    attempt > 0 && attempt % ROTATE_EVERY == 0
  }

  datatype Decision = Ignore | ReconnectAfter(delay: real) | WaitForNetwork | RecheckAfter(delay: real)

  datatype Policy = Policy(lastKey: Option<string>, waiting: bool, appliedAt: Option<real>) {
    function Seed(key: string): Policy {
      if key == "" then this else this.(lastKey := Some(key))
    }

    function SettingsApplied(now: real): Policy {
      this.(appliedAt := Some(now))
    }

    function MarkWaiting(): Policy {
      this.(waiting := true)
    }

    function GraceLeft(now: real): Option<real> {
      if appliedAt.Some? && appliedAt.value + SETTLE_GRACE - now > 0.0
      then Some(appliedAt.value + SETTLE_GRACE - now)
      else None
    }

    function PathChanged(key: string, usable: bool, now: real): (Policy, Decision) {
      if !usable then
        match GraceLeft(now)
        case Some(left) => (this, RecheckAfter(left))
        case None => (this.(waiting := true), WaitForNetwork)
      else if key == "" then (this, Ignore)
      else
        var seen := this.(lastKey := Some(key));
        if waiting then (seen.(waiting := false), ReconnectAfter(DEBOUNCE))
        else if lastKey.Some? && lastKey.value != key then (seen, ReconnectAfter(DEBOUNCE))
        else (seen, Ignore)
    }
  }

  const FreshPolicy := Policy(None, false, None)

  /** The servers a session may use, best first, and the one it is on. */
  datatype CandidateList = CandidateList(ids: seq<string>, index: nat) {
    function Current(): string {
      if index < |ids| then ids[index] else ""
    }

    function Advanced(): CandidateList {
      if ids == [] then this else At(ids, (index + 1) % |ids|)
    }
  }

  /** Every list comes from the initialiser, whose index is in range. */
  type Candidates = c: CandidateList | c.index < |c.ids| || (c.ids == [] && c.index == 0) witness CandidateList([], 0)

  /** CandidateList's initialiser: the index is clamped into the list. */
  function At(ids: seq<string>, index: int): Candidates {
    if ids == [] then CandidateList(ids, 0)
    else if index < 0 then CandidateList(ids, 0)
    else if index >= |ids| then CandidateList(ids, |ids| - 1)
    else CandidateList(ids, index)
  }

  function ForSwitch(target: string, previous: string, listed: seq<string>): Candidates {
    At(Unseen([target, previous] + listed, {}), 0)
  }

  /** Non-empty names in order, each kept only where it first appears. */
  function Unseen(names: seq<string>, seen: set<string>): seq<string> {
    if names == [] then []
    else if names[0] == "" || names[0] in seen then Unseen(names[1..], seen)
    else [names[0]] + Unseen(names[1..], seen + {names[0]})
  }

  lemma {:induction false} UnseenIsDistinct(names: seq<string>, seen: set<string>)
    ensures Distinct(Unseen(names, seen))
    ensures forall n :: n in Unseen(names, seen) <==> n in names && n != "" && n !in seen
  {
    if names == [] {
    } else if names[0] == "" || names[0] in seen {
      UnseenIsDistinct(names[1..], seen);
      assert names == [names[0]] + names[1..];
    } else {
      UnseenIsDistinct(names[1..], seen + {names[0]});
      assert names == [names[0]] + names[1..];
    }
  }

  /** A switch list leads with the new server, falls back first to the one being left, repeats
      nothing, and holds exactly the named servers. */
  lemma SwitchListLeadsWithTarget(target: string, previous: string, listed: seq<string>)
    requires target != ""
    ensures var c := ForSwitch(target, previous, listed);
      && c.Current() == target && Distinct(c.ids)
      && (forall n :: n in c.ids <==> n != "" && (n == target || n == previous || n in listed))
      && (previous != "" && previous != target ==> |c.ids| > 1 && c.ids[1] == previous)
  {
    var names := [target, previous] + listed;
    UnseenIsDistinct(names, {});
    var seen: set<string> := {};
    var rest := names[1..];
    assert Unseen(names, seen) == [target] + Unseen(rest, seen + {target});
    assert rest[0] == previous;
  }

  // ---- Failover fairness ----

  /** One failed attempt: an unknown server is skipped at once, and every third failure in a row
      moves on as well. */
  function AfterFailure(c: Candidates, attempt: nat, missing: bool): Candidates {
    if missing || Rotates(attempt) then c.Advanced() else c
  }

  /** The candidates in force at each of the attempts `first`, `first + 1`, ..., where
      `missing[k]` says whether attempt `first + k` found its server unknown. */
  function TargetAt(c: Candidates, first: nat, missing: seq<bool>, k: nat): Candidates
    requires k <= |missing|
  {
    if k == 0 then c else AfterFailure(TargetAt(c, first, missing, k - 1), first + k - 1, missing[k - 1])
  }

  /** How many rotations the first k attempts made. */
  function Rotations(first: nat, missing: seq<bool>, k: nat): nat
    requires k <= |missing|
  {
    if k == 0 then 0
    else Rotations(first, missing, k - 1) + Step(first, missing, k - 1)
  }

  function Step(first: nat, missing: seq<bool>, k: nat): nat
    requires k < |missing|
  {
    if missing[k] || Rotates(first + k) then 1 else 0
  }

  /** The target's index is the starting one plus the rotations made, less whole rounds. */
  lemma {:induction false} TargetIsRotations(c: Candidates, first: nat, missing: seq<bool>, k: nat) returns (rounds: nat)
    requires k <= |missing| && c.index < |c.ids|
    ensures TargetAt(c, first, missing, k).ids == c.ids
    ensures TargetAt(c, first, missing, k).index < |c.ids|
    ensures TargetAt(c, first, missing, k).index + rounds * |c.ids| == c.index + Rotations(first, missing, k)
  {
    rounds := 0;
    if k > 0 {
      rounds := TargetIsRotations(c, first, missing, k - 1);
      var before := TargetAt(c, first, missing, k - 1);
      var n := |c.ids|;
      NextIndex(before.index, n);
      if before.Advanced().index == 0 && Step(first, missing, k - 1) == 1 {
        assert (rounds + 1) * n == rounds * n + n;
        rounds := rounds + 1;
      }
    }
  }

  lemma NextIndex(index: nat, n: nat)
    requires index < n
    ensures (index + 1) % n == if index + 1 == n then 0 else index + 1
  {
  }

  lemma MultipleInside(d: int, n: int)
    requires n > 0 && -n < d * n < n
    ensures d == 0
  {
    MultipleGrows(d, n);
    MultipleGrows(-d, n);
  }

  lemma MultipleGrows(d: int, n: int)
    requires n > 0
    ensures d >= 1 ==> d * n >= n
  {
    if d >= 1 {
      assert d * n == n + (d - 1) * n;
    }
  }

  /** Three attempts in a row rotate at least once; over k of them, at least k / 3 times. */
  lemma {:induction false} RotationsGrow(first: nat, missing: seq<bool>, k: nat)
    requires first > 0 && 3 * k <= |missing|
    ensures Rotations(first, missing, 3 * k) >= k
  {
    if k > 0 {
      RotationsGrow(first, missing, k - 1);
      var base := 3 * (k - 1);
      OneOfThreeRotates(first + base);
      assert Rotations(first, missing, base + 3) == Rotations(first, missing, base + 2) + Step(first, missing, base + 2);
      assert Rotations(first, missing, base + 2) == Rotations(first, missing, base + 1) + Step(first, missing, base + 1);
      assert Rotations(first, missing, base + 1) == Rotations(first, missing, base) + Step(first, missing, base);
    }
  }

  lemma OneOfThreeRotates(attempt: nat)
    requires attempt > 0
    ensures Rotates(attempt) || Rotates(attempt + 1) || Rotates(attempt + 2)
  {
    var m := attempt % 3;
    var q := attempt / 3;
    assert attempt == 3 * q + m;
    if m == 1 {
      assert attempt + 2 == 3 * (q + 1);
    } else if m == 2 {
      assert attempt + 1 == 3 * (q + 1);
    }
  }

  /** Rotations go up by at most one an attempt, so no value on the way is skipped. */
  lemma {:induction false} ReachesEveryCount(first: nat, missing: seq<bool>, k: nat, want: nat) returns (at: nat)
    requires k <= |missing| && want <= Rotations(first, missing, k)
    ensures at <= k && Rotations(first, missing, at) == want
  {
    if Rotations(first, missing, k) == want {
      at := k;
    } else {
      at := ReachesEveryCount(first, missing, k - 1, want);
    }
  }

  /** Fairness: over any 3n failed attempts in a row every one of the n candidates is the server
      some attempt is made on, however many of the attempts found their server unknown. */
  lemma EveryCandidateIsTried(c: Candidates, first: nat, missing: seq<bool>, want: nat)
    requires first > 0 && c.index < |c.ids| && want < |c.ids| && |missing| == 3 * |c.ids|
    ensures exists k :: 0 <= k < |missing| && TargetAt(c, first, missing, k).index == want
  {
    var n := |c.ids|;
    // How far ahead of the current index the wanted one lies.
    var ahead := if want >= c.index then want - c.index else want + n - c.index;
    RotationsGrow(first, missing, n);
    var at := ReachesEveryCount(first, missing, 3 * n, ahead);
    var rounds := TargetIsRotations(c, first, missing, at);
    var whole := if want >= c.index then 0 else 1;
    var index := TargetAt(c, first, missing, at).index;
    assert (whole - rounds) * n == whole * n - rounds * n == index - want;
    MultipleInside(whole - rounds, n);
    assert index == want;
  }
}
