/** The readiness loop of a freshly spawned engine, and how construction concludes from it. */
module Startup {
  import opened Prelude
  import opened Errors
  import opened Supervisor
  import Waiting

  const LAP := PROBE_TIMEOUT + PROBE_PAUSE

  /** What a `GetInfo` probe comes back with; `Interrupted` is an exception other than a
      `ConduitError`, raised during the probe or the pause after it. */
  datatype Reply = Answered | Failed(error: Report) | Interrupted

  datatype Probe = Probe(took: real, reply: Reply, overslept: real)

  type Environment = nat -> Probe

  ghost predicate WellBehaved(env: Environment, slack: real) {
    forall k ::
      && 0.0 <= env(k).took <= (if env(k).reply.Interrupted? then LAP else PROBE_TIMEOUT)
      && 0.0 <= env(k).overslept <= slack
  }

  datatype Loop =
    | Probing(now: real, probes: nat, last: Option<Report>)
    | Ready(now: real, probes: nat)
    | Crashed(now: real, probes: nat)
    | Unreachable(now: real, probes: nat, last: Option<Report>)
    | Broken(now: real, probes: nat)

  predicate ExitedBy(exitAt: Option<real>, now: real) {
    exitAt.Some? && exitAt.value <= now
  }

  function Turn(env: Environment, exitAt: Option<real>, deadline: real, s: Loop): Loop {
    if !s.Probing? then s
    else if s.now >= deadline then Unreachable(s.now, s.probes, s.last)
    else if ExitedBy(exitAt, s.now) then Crashed(s.now, s.probes)
    else
      var p := env(s.probes);
      match p.reply
      case Answered => Ready(s.now + p.took, s.probes + 1)
      case Interrupted => Broken(s.now + p.took, s.probes + 1)
      case Failed(error) => Probing(s.now + p.took + PROBE_PAUSE + p.overslept, s.probes + 1, Some(error))
  }

  /** The loop after at most `n` turns, for a process that exits at `exitAt` if left alone. */
  function After(env: Environment, exitAt: Option<real>, start: real, timeout: real, n: nat): Loop {
    if n == 0 then Probing(start, 0, None)
    else Turn(env, exitAt, start + timeout, After(env, exitAt, start, timeout, n - 1))
  }

  /** In every environment it is over within one lap after the deadline. */
  lemma {:induction false} EndsSoonAfterDeadline(env: Environment, exitAt: Option<real>, start: real, timeout: real, slack: real, n: nat)
    requires WellBehaved(env, slack)
    ensures After(env, exitAt, start, timeout, n).now < Later(start, start + timeout) + 1.1 + slack
  {
    assert 0.0 <= env(0).overslept <= slack;
    if n > 0 {
      EndsSoonAfterDeadline(env, exitAt, start, timeout, slack, n - 1);
      var s := After(env, exitAt, start, timeout, n - 1);
      assert 0.0 <= env(s.probes).took <= LAP && 0.0 <= env(s.probes).overslept <= slack;
    }
  }

  lemma {:induction false} ProbesAreSpaced(env: Environment, exitAt: Option<real>, start: real, timeout: real, slack: real, n: nat)
    requires WellBehaved(env, slack)
    ensures var s := After(env, exitAt, start, timeout, n);
      s.Probing? ==>
        && s.probes == n && start + Waiting.Times(n, 0.1) <= s.now
        && (n > 0 ==> Waiting.Times(n - 1, 0.1) < timeout)
  {
    if n > 0 {
      ProbesAreSpaced(env, exitAt, start, timeout, slack, n - 1);
      var s := After(env, exitAt, start, timeout, n - 1);
      assert 0.0 <= env(s.probes).took && 0.0 <= env(s.probes).overslept;
    }
  }

  /** ... and within a bounded number of probes. */
  lemma Terminates(env: Environment, exitAt: Option<real>, start: real, timeout: real, slack: real)
    requires WellBehaved(env, slack) && 0.0 < timeout
    ensures 0 <= Waiting.Ceil(timeout / 0.1)
    ensures !After(env, exitAt, start, timeout, Waiting.Ceil(timeout / 0.1) + 1).Probing?
  {
    Waiting.FewerThanCeil(0, timeout, 0.1);
    var n: nat := Waiting.Ceil(timeout / 0.1);
    ProbesAreSpaced(env, exitAt, start, timeout, slack, n + 1);
    if After(env, exitAt, start, timeout, n + 1).Probing? {
      Waiting.FewerThanCeil(n, timeout, 0.1);
    }
  }

  /** In any case after some number of turns. */
  lemma Stops(env: Environment, exitAt: Option<real>, start: real, timeout: real, slack: real) returns (n: nat)
    requires WellBehaved(env, slack)
    ensures !After(env, exitAt, start, timeout, n).Probing?
  {
    if 0.0 < timeout {
      Terminates(env, exitAt, start, timeout, slack);
      n := Waiting.Ceil(timeout / 0.1) + 1;
    } else {
      n := 1;
      assert After(env, exitAt, start, timeout, 0) == Probing(start, 0, None);
    }
  }

  function Later(a: real, b: real): real {
    if a <= b then b else a
  }

  lemma {:induction false} ProbingAfterDeath(env: Environment, died: real, start: real, timeout: real, slack: real, n: nat)
    requires WellBehaved(env, slack) && Later(died, start) + LAP + slack <= start + timeout
    ensures var s := After(env, Some(died), start, timeout, n);
      && s.now < Later(died, start) + LAP + slack
      && !s.Unreachable?
      && (s.Crashed? ==> died <= s.now)
  {
    assert 0.0 <= env(0).overslept <= slack;
    if n > 0 {
      ProbingAfterDeath(env, died, start, timeout, slack, n - 1);
      var s := After(env, Some(died), start, timeout, n - 1);
      assert 0.0 <= env(s.probes).took <= LAP && 0.0 <= env(s.probes).overslept <= slack;
    }
  }

  /** A process that dies more than one lap before the deadline is reported as crashed, never as
      unreachable, within one lap of its death, unless a probe is answered or interrupted. */
  lemma {:induction false} DeathIsNoticed(env: Environment, died: real, start: real, timeout: real, slack: real, n: nat)
    requires WellBehaved(env, slack) && Later(died, start) + 1.1 + slack <= start + timeout
    requires var s := After(env, Some(died), start, timeout, n); !s.Probing? && !s.Ready? && !s.Broken?
    ensures var s := After(env, Some(died), start, timeout, n);
      s.Crashed? && died <= s.now < Later(died, start) + 1.1 + slack
  {
    ProbingAfterDeath(env, died, start, timeout, slack, n);
  }

  /** A death within the first pause is seen by the second look at the latest, so the process is
      not reported as unreachable if one lap cannot use up the budget. */
  lemma {:induction false} EarlyDeathIsSeen(env: Environment, died: real, start: real, timeout: real, slack: real, n: nat)
    requires WellBehaved(env, slack) && 0.0 <= slack
    requires 0.0 < timeout && died <= start + PROBE_PAUSE && (died <= start || LAP + slack < timeout)
    ensures var s := After(env, Some(died), start, timeout, n);
      && !s.Unreachable?
      && (s.Probing? ==>
           (s.now == start && s.probes == 0) || (died <= s.now && s.now < start + timeout))
  {
    if n > 0 {
      EarlyDeathIsSeen(env, died, start, timeout, slack, n - 1);
      var s := After(env, Some(died), start, timeout, n - 1);
      assert 0.0 <= env(s.probes).took && 0.0 <= env(s.probes).overslept <= slack;
    }
  }

  /** When a death is sure to be recognised as one: it precedes the first look; or one lap cannot
      use up the budget, and it leaves a whole lap before the deadline or precedes the second look. */
  predicate SurelySeen(died: real, start: real, timeout: real, lap: real) {
    && 0.0 < timeout
    && (|| died <= start
        || (lap < timeout && (died <= start + timeout - lap || died <= start + 0.1)))
  }

  /** Probes that fail after such times that the second last look is at `start + wait` and the next
      one the longest possible lap later. */
  function Sluggish(wait: real, slack: real, error: Report): Environment {
    var laps := (wait - PROBE_PAUSE).Floor;
    k =>
      if k == 0 then Probe(wait - laps as real - PROBE_PAUSE, Failed(error), 0.0)
      else if k <= laps then Probe(PROBE_TIMEOUT - PROBE_PAUSE, Failed(error), 0.0)
      else Probe(PROBE_TIMEOUT, Failed(error), slack)
  }

  lemma {:induction false} SluggishLooks(died: real, start: real, timeout: real, wait: real, slack: real, error: Report, i: nat)
    requires PROBE_PAUSE <= wait && start + wait < died && wait < timeout
    requires i <= (wait - PROBE_PAUSE).Floor
    ensures After(Sluggish(wait, slack, error), Some(died), start, timeout, i + 1)
         == Probing(start + wait - ((wait - PROBE_PAUSE).Floor - i) as real, i + 1, Some(error))
  {
    var env := Sluggish(wait, slack, error);
    if i == 0 {
      assert After(env, Some(died), start, timeout, 0) == Probing(start, 0, None);
    } else {
      SluggishLooks(died, start, timeout, wait, slack, error, i - 1);
    }
  }

  /** Outside that condition there is an environment in which the loop looks last before the death
      and next after the deadline, and gives the process up as unreachable. */
  lemma LateDeathIsMissed(died: real, start: real, timeout: real, slack: real, error: Report)
    returns (env: Environment, n: nat)
    requires 0.0 <= slack && !SurelySeen(died, start, timeout, 1.1 + slack)
    ensures WellBehaved(env, slack)
    ensures After(env, Some(died), start, timeout, n).Unreachable?
  {
    var lap := LAP + slack;
    if timeout <= lap {
      env, n := k => Probe(PROBE_TIMEOUT, Failed(error), slack), if timeout <= 0.0 then 1 else 2;
      assert After(env, Some(died), start, timeout, 0) == Probing(start, 0, None);
      if 0.0 < timeout {
        assert After(env, Some(died), start, timeout, 1) == Probing(start + lap, 1, Some(error));
      }
    } else {
      var wait := Later(PROBE_PAUSE, timeout - lap);
      var laps: nat := (wait - PROBE_PAUSE).Floor;
      env, n := Sluggish(wait, slack, error), laps + 3;
      SluggishLooks(died, start, timeout, wait, slack, error, laps);
      assert After(env, Some(died), start, timeout, laps + 2) == Probing(start + wait + lap, laps + 2, Some(error));
    }
  }

  /** A death is never taken for unreachability, in any environment, exactly under that condition. */
  lemma {:induction false} DeathIsSeenExactlyWhen(died: real, start: real, timeout: real, slack: real)
    requires 0.0 <= slack
    ensures (forall env, n: nat :: WellBehaved(env, slack) ==> !After(env, Some(died), start, timeout, n).Unreachable?)
       <==> SurelySeen(died, start, timeout, 1.1 + slack)
  {
    if SurelySeen(died, start, timeout, 1.1 + slack) {
      forall env, n: nat | WellBehaved(env, slack)
        ensures !After(env, Some(died), start, timeout, n).Unreachable?
      {
        if died <= start + PROBE_PAUSE && (died <= start || LAP + slack < timeout) {
          EarlyDeathIsSeen(env, died, start, timeout, slack, n);
        } else {
          ProbingAfterDeath(env, died, start, timeout, slack, n);
        }
      }
    } else {
      var env, n := LateDeathIsMissed(died, start, timeout, slack, Report("", "", "", "", "", ""));
    }
  }

  /** The error of the latest probe, if it failed. */
  function LastError(env: Environment, probes: nat): Option<Report> {
    if probes > 0 && env(probes - 1).reply.Failed? then Some(env(probes - 1).reply.error) else None
  }

  /** What each end of the loop is entitled to claim. */
  lemma {:induction false} EndsAreTruthful(env: Environment, exitAt: Option<real>, start: real, timeout: real, n: nat)
    ensures match After(env, exitAt, start, timeout, n)
      case Probing(now, probes, last) =>
        last == LastError(env, probes)
      case Ready(now, probes) => probes > 0 && env(probes - 1).reply == Answered
                              && !ExitedBy(exitAt, now - env(probes - 1).took)
      case Crashed(now, probes) => ExitedBy(exitAt, now) && now < start + timeout
      case Unreachable(now, probes, last) =>
        && start + timeout <= now
        && last == LastError(env, probes)
      case Broken(now, probes) => probes > 0 && env(probes - 1).reply == Interrupted
  {
    if n > 0 {
      EndsAreTruthful(env, exitAt, start, timeout, n - 1);
    }
  }

  // ----- How construction concludes --------------------------------------------------------

  datatype Launch =
    | Started
    | EngineCrashed
    | EngineUnreachable(last: Option<Report>)
    | LaunchInterrupted
    | TeardownFailed

  /** The world when the process has just been spawned. */
  function Spawned(now: real, exitAt: Option<real>): World {
    World(now, exitAt, false, false, true, [])
  }

  function TearDown(t: Temper, w: World, result: Launch): (World, Launch) {
    var (w', ok) := Terminate(t, w);
    (w', if ok then result else TeardownFailed)
  }

  /** Success keeps everything up; each failure does what its branch does and then tears down. */
  function Conclude(t: Temper, w: World, s: Loop): (World, Launch)
    requires !s.Probing?
  {
    var w := w.(now := s.now);
    match s
    case Ready(_, _) => (w, Started)
    case Crashed(_, _) => TearDown(t, Note(Note(w, SawExit), ChannelClosed), EngineCrashed)
    case Unreachable(_, _, last) => TearDown(t, Note(w, ChannelClosed), EngineUnreachable(last))
    case Broken(_, _) => TearDown(t, w, LaunchInterrupted)
  }

  /** Construction has two kinds of exit. Either a probe was answered and nothing at all has been
      torn down; or it raises what its branch says, unless the teardown fails, which it does exactly
      when the process does not yield. Then everything is torn down as far as the process lets it,
      signals are in order and the exit hook has nothing left to do. On both `ConduitError` exits the
      channel was closed exactly once, and before the process was touched. */
  lemma ConstructionOutcomes(t: Temper, env: Environment, exitAt: Option<real>, start: real, timeout: real, n: nat)
    requires Sound(t) && !After(env, exitAt, start, timeout, n).Probing?
    ensures var s := After(env, exitAt, start, timeout, n);
      var (w, result) := Conclude(t, Spawned(start, exitAt), s);
      if s.Ready? then
        s.probes > 0 && env(s.probes - 1).reply == Answered && result == Started && Up(w) && w.journal == []
      else
        && result == (if !Yields(t, Spawned(s.now, exitAt)) then TeardownFailed
                      else match s
                        case Crashed(_, _) => EngineCrashed
                        case Unreachable(_, _, _) => EngineUnreachable(LastError(env, s.probes))
                        case _ => LaunchInterrupted)
        && w.stopped && Terminate(t, w) == (w, true)
        && (result == TeardownFailed <==> !Dead(w)) && (Dead(w) <==> !w.logOpen)
        && Count(w.journal, ChannelClosed) == (if s.Broken? then 0 else 1)
        && Orderly(w.journal)
        && (s.Crashed? ==>
              && result == EngineCrashed && ExitedBy(exitAt, s.now)
              && w.journal == [Event(SawExit, s.now), Event(ChannelClosed, s.now), Event(SawExit, s.now), Event(LogClosed, s.now)])
        && (s.Unreachable? ==> w.journal != [] && w.journal[0] == Event(ChannelClosed, s.now) && IsTeardown(w.journal[1..]))
        && (s.Broken? ==> IsTeardown(w.journal))
  {
    EndsAreTruthful(env, exitAt, start, timeout, n);
    var s := After(env, exitAt, start, timeout, n);
    var w0 := Spawned(start, exitAt).(now := s.now);
    assert w0 == Spawned(s.now, exitAt);
    match s {
      case Ready(_, _) =>
      case Crashed(_, _) => CrashConclusion(t, w0);
      case Unreachable(_, _, _) => UnreachableConclusion(t, w0);
      case Broken(_, _) => BrokenConclusion(t, w0);
    }
  }

  lemma CrashConclusion(t: Temper, w0: World)
    requires Sound(t) && Dead(w0) && !w0.stopped && w0.journal == []
    ensures var (w, ok) := Terminate(t, Note(Note(w0, SawExit), ChannelClosed));
      && ok && w.stopped && Dead(w) && !w.logOpen && Orderly(w.journal)
      && w.journal == [Event(SawExit, w0.now), Event(ChannelClosed, w0.now), Event(SawExit, w0.now), Event(LogClosed, w0.now)]
      && Count(w.journal, ChannelClosed) == 1 && Count(w.journal, TermSignal) == 0 && Count(w.journal, KillSignal) == 0
  {
    var w := Terminate(t, Note(Note(w0, SawExit), ChannelClosed)).0;
    var a, b, c := Event(SawExit, w0.now), Event(ChannelClosed, w0.now), Event(LogClosed, w0.now);
    assert w.journal == [a] + ([b] + ([a] + [c]));
    forall k: Kind
      ensures Count(w.journal, k) == (if k == SawExit then 2 else 0) + (if k == ChannelClosed || k == LogClosed then 1 else 0)
    {
      CountCons(a, [b] + ([a] + [c]), k);
      CountCons(b, [a] + [c], k);
      CountCons(a, [c], k);
      CountCons(c, [], k);
      assert [c] + [] == [c];
    }
  }

  lemma UnreachableConclusion(t: Temper, w0: World)
    requires Sound(t) && Up(w0) && w0.journal == []
    ensures var (w, ok) := Terminate(t, Note(w0, ChannelClosed));
      && w.stopped && (ok <==> Dead(w)) && (Dead(w) <==> !w.logOpen)
      && (ok <==> Yields(t, w0))
      && Count(w.journal, ChannelClosed) == 1 && Orderly(w.journal)
      && w.journal != [] && w.journal[0] == Event(ChannelClosed, w0.now) && IsTeardown(w.journal[1..])
  {
    var u := Note(w0, ChannelClosed);
    var e := Event(ChannelClosed, w0.now);
    var es := TerminateTrace(t, u);
    assert u.journal + es == [e] + es;
    assert ([e] + es)[1..] == es;
    CountAround(es, e, ChannelClosed);
    OrderlyTeardown(es);
    OrderlyAround(es, e);
    TerminateSucceedsExactlyWhen(t, u);
  }

  lemma BrokenConclusion(t: Temper, w0: World)
    requires Sound(t) && Up(w0) && w0.journal == []
    ensures var (w, ok) := Terminate(t, w0);
      && w.stopped && (ok <==> Dead(w)) && (Dead(w) <==> !w.logOpen)
      && (ok <==> Yields(t, w0))
      && Count(w.journal, ChannelClosed) == 0 && Orderly(w.journal) && IsTeardown(w.journal)
  {
    var es := TerminateTrace(t, w0);
    TeardownLooks(Terminate(t, w0).0.journal, es);
    TerminateSucceedsExactlyWhen(t, w0);
  }

  lemma TeardownLooks(journal: seq<Event>, es: seq<Event>)
    requires journal == [] + es && IsTeardown(es)
    ensures Orderly(journal) && Count(journal, ChannelClosed) == 0 && IsTeardown(journal)
  {
    assert journal == es;
    CountTeardown(es, ChannelClosed);
    OrderlyTeardown(es);
  }
}
