/** The tunnel globals of package mobile: the prepared config and its key material, the start in its
    cascade, the running tunnel and the stored status. Every critical section of `mu` is one function
    here, and one method of the class below; configs and attempts are named by their allocation order. */
module TunnelState {
  import opened Support

  type Bytes = seq<bv8>

  /** `starts` counts the cascades still reading the keys. */
  datatype Config = Config(wgPrivateKeyRaw: Bytes, presharedKeyRaw: Bytes, starts: int)

  /** `cancelled` is the attempt's context being done; `done` its channel being closed. */
  datatype Attempt = Attempt(config: nat, cancelled: bool, live: bool, done: bool)

  /** A status is about the servers of one config. */
  datatype Status =
    | Disconnected | Disconnecting(server: nat) | Connecting(server: nat) | ConnectedTo(server: nat) | Failed(server: nat)

  /** A runtime is named by the attempt that published it. */
  datatype Globals = Globals(
    prepared: Option<nat>,
    starting: Option<nat>,
    activeTunnel: Option<nat>,
    currentStatus: Status,
    sessionEpoch: nat,
    identity: Option<nat>,
    configs: seq<Config>,
    attempts: seq<Attempt>)

  const Boot := Globals(None, None, None, Disconnected, 0, None, [], [])

  datatype ClaimError = NotPrepared | AlreadyRunning

  function Zeros(n: nat): Bytes {
    seq(n, _ => 0 as bv8)
  }

  function Scrubbed(c: Config): Config {
    c.(wgPrivateKeyRaw := Zeros(|c.wgPrivateKeyRaw|), presharedKeyRaw := Zeros(|c.presharedKeyRaw|))
  }

  ghost predicate AttemptIn(g: Globals, a: nat) {
    a < |g.attempts| && g.attempts[a].config < |g.configs|
  }

  function ClaimStart(g: Globals): (Globals, Result<nat, ClaimError>)
    requires g.prepared.Some? ==> g.prepared.value < |g.configs|
  {
    if g.prepared.None? then (g, Err(NotPrepared))
    else if g.activeTunnel.Some? || g.starting.Some? then (g, Err(AlreadyRunning))
    else
      var p := g.prepared.value;
      var a := |g.attempts|;
      (g.(attempts := g.attempts + [Attempt(p, false, false, false)],
          configs := g.configs[p := g.configs[p].(starts := g.configs[p].starts + 1)],
          starting := Some(a)),
       Ok(a))
  }

  function FinishStart(g: Globals, a: nat): Globals
    requires AttemptIn(g, a)
  {
    var p := g.attempts[a].config;
    var c := g.configs[p].(starts := g.configs[p].starts - 1);
    g.(starting := if g.starting == Some(a) then None else g.starting,
       configs := g.configs[p := if c.starts == 0 && g.prepared != Some(p) then Scrubbed(c) else c])
  }

  function Cancel(g: Globals, a: nat): Globals
    requires a < |g.attempts|
  {
    g.(attempts := g.attempts[a := g.attempts[a].(cancelled := true)])
  }

  /** After its critical section finishStart cancels a context no runtime owns, and closes `done`. */
  function Release(g: Globals, a: nat): Globals
    requires a < |g.attempts|
  {
    var t := g.attempts[a];
    g.(attempts := g.attempts[a := t.(cancelled := t.cancelled || !t.live, done := true)])
  }

  function GoLive(g: Globals, a: nat): (Globals, bool)
    requires a < |g.attempts|
  {
    if g.attempts[a].cancelled then (g, false)
    else (g.(activeTunnel := Some(a), attempts := g.attempts[a := g.attempts[a].(live := true)]), true)
  }

  function PushAttemptStatus(g: Globals, a: nat, s: Status): Globals
    requires a < |g.attempts|
  {
    if g.attempts[a].cancelled then g else g.(currentStatus := s)
  }

  function DetachTunnel(g: Globals): Globals
    requires g.starting.Some? ==> g.starting.value < |g.attempts|
  {
    var d := g.(activeTunnel := None, starting := None);
    if g.starting.Some? then Cancel(d, g.starting.value) else d
  }

  /** The status a switch announces: about the prepared config, or else what was running. */
  function SwitchLabel(g: Globals, tunnel: Option<nat>, pending: Option<nat>): Status
    requires tunnel.Some? || pending.Some?
    requires tunnel.Some? ==> tunnel.value < |g.attempts|
    requires pending.Some? ==> pending.value < |g.attempts|
  {
    if g.prepared.Some? then Connecting(g.prepared.value)
    else if tunnel.Some? then Connecting(g.attempts[tunnel.value].config)
    else Connecting(g.attempts[pending.value].config)
  }

  function SetPrepared(g: Globals, next: Option<nat>): (q: Globals)
    requires g.prepared.Some? ==> g.prepared.value < |g.configs|
    ensures q == g.(prepared := next, configs := q.configs) && |q.configs| == |g.configs|
  {
    var q := g.(prepared := next);
    if g.prepared.Some? && g.prepared != next && g.configs[g.prepared.value].starts == 0
    then q.(configs := q.configs[g.prepared.value := Scrubbed(q.configs[g.prepared.value])])
    else q
  }

  /** Prepare's last section: a config provisioned for another session or identity is scrubbed. */
  function PublishPrepared(g: Globals, epoch: nat, identity: Option<nat>, key: Bytes, psk: Bytes): (Globals, bool)
    requires g.prepared.Some? ==> g.prepared.value < |g.configs|
  {
    var c := Config(key, psk, 0);
    if g.sessionEpoch != epoch || g.identity != identity
    then (g.(configs := g.configs + [Scrubbed(c)]), false)
    else (SetPrepared(g.(configs := g.configs + [c]), Some(|g.configs|)), true)
  }

  /** What sign-out, a new login and a reload of another session have in common. */
  function EndSession(g: Globals): Globals
    requires g.prepared.Some? ==> g.prepared.value < |g.configs|
  {
    SetPrepared(g, None).(sessionEpoch := g.sessionEpoch + 1)
  }

  function WipeSection(g: Globals): Globals
    requires g.prepared.Some? ==> g.prepared.value < |g.configs|
  {
    EndSession(g).(identity := None, currentStatus := Disconnected)
  }

  // ---- The globals as an object ----

  class Mobile {
    var prepared: Option<nat>
    var starting: Option<nat>
    var activeTunnel: Option<nat>
    var currentStatus: Status
    var sessionEpoch: nat
    var identity: Option<nat>
    var configs: seq<Config>
    var attempts: seq<Attempt>

    ghost function State(): Globals
      reads this
    {
      Globals(prepared, starting, activeTunnel, currentStatus, sessionEpoch, identity, configs, attempts)
    }

    ghost predicate PreparedIn()
      reads this
    {
      prepared.Some? ==> prepared.value < |configs|
    }

    constructor ()
      ensures State() == Boot
    {
      prepared, starting, activeTunnel := None, None, None;
      currentStatus, sessionEpoch, identity := Disconnected, 0, None;
      configs, attempts := [], [];
    }

    method Claim() returns (claimed: Result<nat, ClaimError>)
      requires PreparedIn()
      modifies this
      ensures (State(), claimed) == ClaimStart(old(State()))
    {
      if prepared.None? {
        return Err(NotPrepared);
      }
      if activeTunnel.Some? || starting.Some? {
        return Err(AlreadyRunning);
      }
      var p := prepared.value;
      claimed := Ok(|attempts|);
      starting := Some(|attempts|);
      attempts := attempts + [Attempt(p, false, false, false)];
      configs := configs[p := configs[p].(starts := configs[p].starts + 1)];
    }

    method Scrub(p: nat)
      requires p < |configs|
      modifies this`configs
      ensures configs == old(configs)[p := Scrubbed(old(configs)[p])]
    {
      var c := configs[p];
      var key := Clear(c.wgPrivateKeyRaw);
      var psk := Clear(c.presharedKeyRaw);
      configs := configs[p := c.(wgPrivateKeyRaw := key, presharedKeyRaw := psk)];
    }

    method Finish(a: nat)
      requires AttemptIn(State(), a)
      modifies this
      ensures State() == FinishStart(old(State()), a)
    {
      if starting == Some(a) {
        starting := None;
      }
      var p := attempts[a].config;
      configs := configs[p := configs[p].(starts := configs[p].starts - 1)];
      if configs[p].starts == 0 && prepared != Some(p) {
        Scrub(p);
      }
    }

    method ReleaseAttempt(a: nat)
      requires a < |attempts|
      modifies this
      ensures State() == Release(old(State()), a)
    {
      if !attempts[a].live {
        attempts := attempts[a := attempts[a].(cancelled := true)];
      }
      attempts := attempts[a := attempts[a].(done := true)];
    }

    method Publish(a: nat) returns (live: bool)
      requires a < |attempts|
      modifies this
      ensures (State(), live) == GoLive(old(State()), a)
    {
      if attempts[a].cancelled {
        return false;
      }
      activeTunnel := Some(a);
      attempts := attempts[a := attempts[a].(live := true)];
      live := true;
    }

    method PushStatus(s: Status)
      modifies this`currentStatus
      ensures State() == old(State()).(currentStatus := s)
    {
      currentStatus := s;
    }

    method PushAttempt(a: nat, s: Status)
      requires a < |attempts|
      modifies this
      ensures State() == PushAttemptStatus(old(State()), a, s)
    {
      if attempts[a].cancelled {
        return;
      }
      currentStatus := s;
    }

    method Detach() returns (tunnel: Option<nat>, pending: Option<nat>)
      requires starting.Some? ==> starting.value < |attempts|
      modifies this
      ensures State() == DetachTunnel(old(State()))
      ensures tunnel == old(activeTunnel) && pending == old(starting)
    {
      tunnel, pending := activeTunnel, starting;
      activeTunnel, starting := None, None;
      if pending.Some? {
        attempts := attempts[pending.value := attempts[pending.value].(cancelled := true)];
      }
    }

    method SetPreparedLocked(next: Option<nat>)
      requires PreparedIn()
      modifies this
      ensures State() == SetPrepared(old(State()), next)
    {
      var previous := prepared;
      prepared := next;
      if previous.Some? && previous != next && configs[previous.value].starts == 0 {
        Scrub(previous.value);
      }
    }

    method StashPrepared(epoch: nat, ident: Option<nat>, key: Bytes, psk: Bytes) returns (published: bool)
      requires PreparedIn()
      modifies this
      ensures (State(), published) == PublishPrepared(old(State()), epoch, ident, key, psk)
    {
      var p := |configs|;
      configs := configs + [Config(key, psk, 0)];
      if sessionEpoch != epoch || identity != ident {
        Scrub(p);
        assert configs == old(configs) + [Scrubbed(Config(key, psk, 0))];
        return false;
      }
      SetPreparedLocked(Some(p));
      published := true;
    }

    method DropSession()
      requires PreparedIn()
      modifies this
      ensures State() == EndSession(old(State()))
    {
      SetPreparedLocked(None);
      sessionEpoch := sessionEpoch + 1;
    }

    method WipeMemory()
      requires PreparedIn()
      modifies this
      ensures State() == WipeSection(old(State()))
    {
      DropSession();
      identity := None;
      currentStatus := Disconnected;
    }
  }

  /** The built-in `clear` of a byte slice. */
  method Clear(b: Bytes) returns (zeroed: Bytes)
    ensures zeroed == Zeros(|b|)
  {
    zeroed := [];
    for i := 0 to |b|
      invariant zeroed == Zeros(i)
    {
      zeroed := zeroed + [0];
    }
  }

  // ---- The cascade ----

  /** What a start meets at one transport: cancelled before it is tried, a handshake over it or none, and
      whether goLive refused. */
  datatype Rung = Rung(cancelled: bool, carries: bool, refused: bool)

  datatype Ending = CarriedBy(rung: nat) | WasCancelled | NoneCarried(failures: nat)

  /** A cancel stays: after a rung that met one the context is done. */
  ghost predicate CancelStays(rungs: seq<Rung>, cancelled: bool) {
    forall i :: 0 <= i < |rungs| && (rungs[i].cancelled || rungs[i].refused) ==> cancelled
  }

  /** Goes live over the first transport that carries a handshake, unless a stop came first; it fails only
      after every transport did, and is told cancelled exactly when a stop ended it. */
  method WalkCascade(rungs: seq<Rung>, cancelled: bool) returns (ending: Ending)
    requires CancelStays(rungs, cancelled)
    ensures ending.CarriedBy? ==>
      && ending.rung < |rungs| && rungs[ending.rung].carries && !rungs[ending.rung].refused
      && (forall i :: 0 <= i <= ending.rung ==> !rungs[i].cancelled)
      && (forall i :: 0 <= i < ending.rung ==> !rungs[i].carries)
    ensures ending.NoneCarried? ==>
      !cancelled && ending.failures == |rungs| && forall i :: 0 <= i < |rungs| ==> !rungs[i].carries
    ensures ending.WasCancelled? ==> cancelled
    ensures (exists i :: 0 <= i < |rungs| && rungs[i].carries) && !cancelled ==> ending.CarriedBy?
  {
    var failures := 0;
    for i := 0 to |rungs|
      invariant failures == i
      invariant forall k :: 0 <= k < i ==> !rungs[k].carries && !rungs[k].cancelled
    {
      if rungs[i].cancelled {
        break;
      }
      if !rungs[i].carries {
        failures := failures + 1;
        continue;
      }
      if rungs[i].refused {
        break;
      }
      return CarriedBy(i);
    }
    ending := if cancelled then WasCancelled else NoneCarried(failures);
  }
}
