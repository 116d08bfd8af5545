/** The supervisor and its client as objects: `LocalConduit` and `Client` with the flags the code
    keeps, each method proved to do to the world what its function in Supervisor or Startup says. */
module LocalEngine {
  import opened Prelude
  import opened Errors
  import opened Supervisor
  import opened Startup

  /** The clock, and the journal of what was done to the process, the channel and the log. */
  class Host {
    var now: real
    ghost var journal: seq<Event>

    constructor (now: real)
      ensures this.now == now && journal == []
    {
      this.now := now;
      journal := [];
    }

    method Record(ghost kind: Kind)
      modifies this`journal
      ensures journal == old(journal) + [Event(kind, now)]
    {
      journal := journal + [Event(kind, now)];
    }

    method Sleep(duration: real)
      modifies this`now
      ensures now == old(now) + duration
    {
      now := now + duration;
    }
  }

  class Process {
    const temper: Temper
    const host: Host
    var exitAt: Option<real>

    constructor (host: Host, temper: Temper, exitAt: Option<real>)
      ensures this.host == host && this.temper == temper && this.exitAt == exitAt
    {
      this.host, this.temper, this.exitAt := host, temper, exitAt;
    }

    /** `poll()`: has it exited? */
    method Poll() returns (exited: bool)
      ensures exited == ExitedBy(exitAt, host.now)
    {
      exited := exitAt.Some? && exitAt.value <= host.now;
    }

    method Heed(delay: Option<real>)
      modifies this`exitAt
      ensures exitAt == if delay.None? then old(exitAt) else Sooner(old(exitAt), Some(host.now + delay.value))
    {
      if delay.Some? {
        var heeded := host.now + delay.value;
        if exitAt.None? || heeded < exitAt.value {
          exitAt := Some(heeded);
        }
      }
    }

    /** `wait(timeout=...)`; false is a TimeoutExpired. */
    method Wait(timeout: real) returns (exited: bool)
      modifies host`now
      ensures exited == (exitAt.Some? && exitAt.value <= old(host.now) + timeout)
      ensures host.now == if !exited then old(host.now) + timeout
                          else if exitAt.value <= old(host.now) then old(host.now) else exitAt.value
    {
      if exitAt.Some? && exitAt.value <= host.now + timeout {
        if exitAt.value > host.now {
          host.now := exitAt.value;
        }
        return true;
      }
      host.now := host.now + timeout;
      return false;
    }
  }

  class LocalConduit {
    const host: Host
    const process: Process
    var stopped: bool
    var logOpen: bool

    constructor (process: Process)
      ensures this.process == process && host == process.host && !stopped && logOpen
    {
      this.process, host := process, process.host;
      stopped, logOpen := false, true;
    }

    ghost predicate Valid()
    {
      host == process.host && Sound(process.temper)
    }

    /** The world, given the client's flag. */
    ghost function W(closed: bool): World
      reads this, host, process
    {
      World(host.now, process.exitAt, stopped, closed, logOpen, host.journal)
    }

    /** The process was seen alive: ask it to stop, wait, then force it. */
    method StopRunning(ghost closed: bool) returns (exited: bool)
      requires Valid() && !Dead(W(closed))
      modifies host, process
      ensures var t, w := process.temper, old(W(closed));
        if ExitsWithin(AfterTerm(t, w), GRACEFUL_STOP_TIMEOUT) then
          exited && W(closed) == Waited(AfterTerm(t, w), GRACEFUL_STOP_TIMEOUT)
        else
          && exited == ExitsWithin(AfterKill(t, w), GRACEFUL_STOP_TIMEOUT)
          && W(closed) == Waited(AfterKill(t, w), GRACEFUL_STOP_TIMEOUT)
    {
      ghost var t, w := process.temper, W(closed);
      host.Record(TermSignal);
      process.Heed(process.temper.termDelay);
      assert W(closed) == AfterTerm(t, w);
      exited := process.Wait(GRACEFUL_STOP_TIMEOUT);
      if exited {
        return;
      }
      host.Record(GraceExpired);
      host.Record(KillSignal);
      process.Heed(process.temper.killDelay);
      assert W(closed) == AfterKill(t, w);
      exited := process.Wait(GRACEFUL_STOP_TIMEOUT);
    }

    /** `_terminate`; false is a TimeoutExpired that escapes it. */
    method TerminateProcess(ghost closed: bool) returns (ok: bool)
      requires Valid()
      modifies this, host, process
      ensures (W(closed), ok) == Terminate(process.temper, old(W(closed)))
    {
      if stopped {
        return true;
      }
      stopped := true;
      var exited := process.Poll();
      if exited {
        host.Record(SawExit);
      } else {
        exited := StopRunning(closed);
        if !exited {
          host.Record(KillWaitExpired);
          return false;
        }
      }
      host.Record(LogClosed);
      logOpen := false;
      return true;
    }

    /** The exit hook, which swallows whatever teardown raises. */
    method AtExitKill(ghost closed: bool)
      requires Valid()
      modifies this, host, process
      ensures W(closed) == Happens(process.temper, old(W(closed)), AtExit)
    {
      var _ := TerminateProcess(closed);
    }

    /** `_wait_ready`: poll until a probe is answered, the process is gone or time is up. */
    method WaitReady(timeout: real, env: Environment, ghost slack: real) returns (s: Loop, ghost turns: nat)
      requires Valid() && Startup.WellBehaved(env, slack)
      modifies host
      ensures s == Startup.After(env, process.exitAt, old(host.now), timeout, turns) && !s.Probing?
      ensures host.now == s.now
      ensures host.journal == old(host.journal)
        + (match s
           case Crashed(now, _) => [Event(SawExit, now), Event(ChannelClosed, now)]
           case Unreachable(now, _, _) => [Event(ChannelClosed, now)]
           case _ => [])
    {
      var deadline := host.now + timeout;
      ghost var start, exitAt := host.now, process.exitAt;
      var probes: nat, last: Option<Report> := 0, None;
      turns := 0;
      ghost var bound := Startup.Stops(env, exitAt, start, timeout, slack);
      while host.now < deadline
        invariant Startup.After(env, exitAt, start, timeout, turns) == Probing(host.now, probes, last)
        invariant turns == probes && host.journal == old(host.journal)
        decreases bound - turns
      {
        StillProbing(env, exitAt, start, timeout, turns, bound);
        turns := turns + 1;
        var exited := process.Poll();
        if exited {
          host.Record(SawExit);
          host.Record(ChannelClosed);
          s := Crashed(host.now, probes);
          return;
        }
        var p := env(probes);
        host.Sleep(p.took);
        probes := probes + 1;
        match p.reply {
          case Answered =>
            s := Ready(host.now, probes);
            return;
          case Interrupted =>
            s := Broken(host.now, probes);
            return;
          case Failed(error) =>
            last := Some(error);
            host.Sleep(PROBE_PAUSE + p.overslept);
        }
      }
      turns := turns + 1;
      host.Record(ChannelClosed);
      s := Unreachable(host.now, probes, last);
    }
  }

  /** A loop that has ended stays ended, so one still going has taken fewer turns. */
  lemma {:induction false} StillProbing(env: Environment, exitAt: Option<real>, start: real, timeout: real, n: nat, end: nat)
    requires Startup.After(env, exitAt, start, timeout, n).Probing? && !Startup.After(env, exitAt, start, timeout, end).Probing?
    ensures n < end
  {
    if end < n {
      StillProbing(env, exitAt, start, timeout, n - 1, end);
    }
  }

  class Client {
    const host: Host
    const onClose: LocalConduit?
    var closed: bool

    constructor (host: Host, onClose: LocalConduit?)
      ensures this.host == host && this.onClose == onClose && !closed
    {
      this.host, this.onClose, closed := host, onClose, false;
    }

    ghost predicate Valid() {
      onClose != null ==> onClose.host == host && onClose.Valid()
    }

    /** `close`, and so `__exit__`. A client of a remote engine has nothing to stop. */
    method CloseClient() returns (ok: bool)
      requires Valid()
      modifies this, host, onClose, if onClose != null then {onClose.process} else {}
      ensures closed
      ensures onClose != null ==>
        (onClose.W(true), ok) == Close(onClose.process.temper, old(onClose.W(closed)))
      ensures !old(closed) ==> old(host.journal) + [Event(ChannelClosed, old(host.now))] <= host.journal
      ensures onClose == null ==>
        ok && host.journal == old(host.journal) + (if old(closed) then [] else [Event(ChannelClosed, host.now)])
    {
      if closed {
        return true;
      }
      closed := true;
      host.Record(ChannelClosed);
      if onClose != null {
        assert old(onClose.host.journal) + [Event(ChannelClosed, old(host.now))] == onClose.W(true).journal;
        ghost var w := onClose.W(true);
        ok := onClose.TerminateProcess(true);
        TerminateGrows(onClose.process.temper, w);
        return;
      }
      return true;
    }
  }

  /** The constructor of `LocalConduit`, from the moment the process exists. */
  method Construct(process: Process, timeout: real, env: Environment, ghost slack: real)
    returns (local: LocalConduit, client: Client, result: Launch, ghost turns: nat)
    requires Sound(process.temper) && Startup.WellBehaved(env, slack)
    requires process.host.journal == []
    modifies process, process.host
    ensures fresh(local) && fresh(client) && local.process == process && local.Valid() && client.Valid()
    ensures client.onClose == local && !client.closed
    ensures var s := Startup.After(env, old(process.exitAt), old(process.host.now), timeout, turns);
      && !s.Probing?
      && (local.W(false), result)
         == Conclude(process.temper, Spawned(old(process.host.now), old(process.exitAt)), s)
      && (!s.Ready? ==>
            result == if !Yields(process.temper, Spawned(s.now, old(process.exitAt))) then TeardownFailed
                      else if s.Crashed? then EngineCrashed
                      else if s.Unreachable? then EngineUnreachable(LastError(env, s.probes))
                      else LaunchInterrupted)
  {
    local := new LocalConduit(process);
    client := new Client(process.host, local);
    var s;
    s, turns := local.WaitReady(timeout, env, slack);
    ghost var w := Spawned(old(process.host.now), old(process.exitAt)).(now := s.now);
    if s.Ready? {
      assert local.W(false) == w;
      return local, client, Started, turns;
    }
    assert local.W(false).journal == match s
      case Crashed(_, _) => Note(Note(w, SawExit), ChannelClosed).journal
      case Unreachable(_, _, _) => Note(w, ChannelClosed).journal
      case _ => w.journal;
    ConstructionOutcomes(process.temper, env, old(process.exitAt), old(process.host.now), timeout, turns);
    var ok := local.TerminateProcess(false);
    result := if !ok then TeardownFailed
              else if s.Crashed? then EngineCrashed
              else if s.Unreachable? then EngineUnreachable(s.last)
              else LaunchInterrupted;
  }
}
