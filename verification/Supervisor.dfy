/** Starting and stopping the supervised engine process, as functions on one world value: the
    clock, the process, the flags of the supervisor and its client, and a journal of what was done.
    The classes in LocalEngine are proved to behave like these functions. */
module Supervisor {
  import opened Prelude

  const GRACEFUL_STOP_TIMEOUT := 10.0
  const PROBE_TIMEOUT := 1.0
  const PROBE_PAUSE := 0.1

  datatype Kind =
    | SawExit | TermSignal | GraceExpired | KillSignal | KillWaitExpired | LogClosed | ChannelClosed

  datatype Event = Event(kind: Kind, at: real)

  /** How the process takes signals: the delay after which it exits, if it does. */
  datatype Temper = Temper(termDelay: Option<real>, killDelay: Option<real>)

  /** `exitAt` is when the process exits unless it is signalled sooner. */
  datatype World = World(
    now: real, exitAt: Option<real>,
    stopped: bool, closed: bool, logOpen: bool, journal: seq<Event>)

  predicate Sound(t: Temper) {
    && (t.termDelay.Some? ==> 0.0 <= t.termDelay.value)
    && (t.killDelay.Some? ==> 0.0 <= t.killDelay.value)
  }

  predicate Dead(w: World) {
    w.exitAt.Some? && w.exitAt.value <= w.now
  }

  function Note(w: World, kind: Kind): World {
    w.(journal := w.journal + [Event(kind, w.now)])
  }

  function Sooner(a: Option<real>, b: Option<real>): Option<real> {
    if a.None? then b
    else if b.None? then a
    else if a.value <= b.value then a else b
  }

  /** A signal; it does nothing to a process that has exited. */
  function Signalled(w: World, delay: Option<real>): World {
    if delay.None? then w else w.(exitAt := Sooner(w.exitAt, Some(w.now + delay.value)))
  }

  predicate ExitsWithin(w: World, timeout: real) {
    w.exitAt.Some? && w.exitAt.value <= w.now + timeout
  }

  /** The clock after waiting for the process for at most `timeout`. */
  function Waited(w: World, timeout: real): World {
    if !ExitsWithin(w, timeout) then w.(now := w.now + timeout)
    else if w.exitAt.value <= w.now then w
    else w.(now := w.exitAt.value)
  }

  // ----- Teardown --------------------------------------------------------------------------

  function AfterTerm(t: Temper, w: World): World {
    Signalled(Note(w, TermSignal), t.termDelay)
  }

  function AfterKill(t: Temper, w: World): World {
    Signalled(Note(Note(Waited(AfterTerm(t, w), GRACEFUL_STOP_TIMEOUT), GraceExpired), KillSignal), t.killDelay)
  }

  function CloseLog(w: World): World {
    Note(w, LogClosed).(logOpen := false)
  }

  /** `_terminate`; false means that it raised, because even the killed process did not exit. */
  function Terminate(t: Temper, w: World): (World, bool) {
    if w.stopped then (w, true)
    else
      var w := w.(stopped := true);
      if Dead(w) then (CloseLog(Note(w, SawExit)), true)
      else if ExitsWithin(AfterTerm(t, w), GRACEFUL_STOP_TIMEOUT) then
        (CloseLog(Waited(AfterTerm(t, w), GRACEFUL_STOP_TIMEOUT)), true)
      else if ExitsWithin(AfterKill(t, w), GRACEFUL_STOP_TIMEOUT) then
        (CloseLog(Waited(AfterKill(t, w), GRACEFUL_STOP_TIMEOUT)), true)
      else
        (Note(Waited(AfterKill(t, w), GRACEFUL_STOP_TIMEOUT), KillWaitExpired), false)
  }

  /** `close` of a client that owns the process. */
  function Close(t: Temper, w: World): (World, bool) {
    if w.closed then (w, true) else Terminate(t, Note(w, ChannelClosed).(closed := true))
  }

  /** What can happen to a supervised engine: `close` or leaving the `with` block, the hook at
      interpreter exit, time passing, the process exiting by itself. */
  datatype Happening = CloseCall | AtExit | Pass(duration: real) | ProcessDies

  function Happens(t: Temper, w: World, h: Happening): World {
    match h
    case CloseCall => Close(t, w).0
    case AtExit => Terminate(t, w).0
    case Pass(d) => if 0.0 <= d then w.(now := w.now + d) else w
    case ProcessDies => w.(exitAt := Sooner(w.exitAt, Some(w.now)))
  }

  function Live(t: Temper, w: World, hs: seq<Happening>): World
    decreases |hs|
  {
    if hs == [] then w else Happens(t, Live(t, w, hs[..|hs| - 1]), hs[|hs| - 1])
  }

  // ----- What every history looks like -----------------------------------------------------

  /** The trace of one teardown, from the moment the flag flips. */
  ghost predicate IsTeardown(es: seq<Event>) {
    || (|es| == 2 && es[0].kind == SawExit && es[1] == Event(LogClosed, es[0].at))
    || (|es| == 2 && es[0].kind == TermSignal && es[1].kind == LogClosed
        && es[0].at <= es[1].at <= es[0].at + 10.0)
    || (|es| == 4 && es[0].kind == TermSignal
        && es[1] == Event(GraceExpired, es[0].at + 10.0)
        && es[2] == Event(KillSignal, es[0].at + 10.0)
        && ((es[3].kind == LogClosed && es[2].at <= es[3].at <= es[2].at + 10.0)
            || es[3] == Event(KillWaitExpired, es[2].at + 10.0)))
  }

  ghost predicate TornDown(es: seq<Event>, logOpen: bool) {
    IsTeardown(es) && (logOpen <==> es[|es| - 1].kind == KillWaitExpired)
  }

  /** What was done since `base`, by the two flags: nothing; a teardown by the exit hook; or a
      teardown with the channel closed right before it or some time after it. */
  ghost predicate Story(base: seq<Event>, w: World) {
    && base <= w.journal
    && (w.stopped && !w.logOpen ==> Dead(w))
    && var es := w.journal[|base|..];
       if !w.stopped then !w.closed && w.logOpen && es == []
       else if !w.closed then TornDown(es, w.logOpen)
       else
         && |es| > 0
         && ((es[0].kind == ChannelClosed && TornDown(es[1..], w.logOpen))
             || (es[|es| - 1].kind == ChannelClosed && TornDown(es[..|es| - 1], w.logOpen)))
  }

  lemma WaitedFacts(w: World, timeout: real)
    requires 0.0 <= timeout
    ensures var w' := Waited(w, timeout);
      && w' == w.(now := w'.now) && w.now <= w'.now <= w.now + timeout
      && (Dead(w') <==> ExitsWithin(w, timeout))
      && (!ExitsWithin(w, timeout) ==> w'.now == w.now + timeout)
  {
  }

  /** What is appended when the grace period suffices, and when it does not. */
  lemma GraceTrace(t: Temper, w: World)
    requires Sound(t) && ExitsWithin(AfterTerm(t, w), GRACEFUL_STOP_TIMEOUT)
    ensures var w' := CloseLog(Waited(AfterTerm(t, w), GRACEFUL_STOP_TIMEOUT));
      && w'.journal == w.journal + [Event(TermSignal, w.now), Event(LogClosed, w'.now)]
      && w.now <= w'.now <= w.now + GRACEFUL_STOP_TIMEOUT && Dead(w')
  {
    WaitedFacts(AfterTerm(t, w), GRACEFUL_STOP_TIMEOUT);
  }

  lemma KillTrace(t: Temper, w: World)
    requires Sound(t) && !ExitsWithin(AfterTerm(t, w), GRACEFUL_STOP_TIMEOUT)
    ensures var w', late := AfterKill(t, w), w.now + GRACEFUL_STOP_TIMEOUT;
      && w' == w.(now := late, exitAt := w'.exitAt, journal := w'.journal)
      && w'.journal == w.journal
           + [Event(TermSignal, w.now), Event(GraceExpired, late), Event(KillSignal, late)]
  {
    WaitedFacts(AfterTerm(t, w), GRACEFUL_STOP_TIMEOUT);
  }

  /** One teardown appends exactly such a trace; the process is dead afterwards unless killing it
      did not help. */
  lemma TerminateTrace(t: Temper, w: World) returns (es: seq<Event>)
    requires Sound(t) && !w.stopped
    ensures var (w', ok) := Terminate(t, w);
      && w'.stopped && w'.closed == w.closed && w.now <= w'.now
      && w'.journal == w.journal + es && IsTeardown(es)
      && es[|es| - 1].kind == (if ok then LogClosed else KillWaitExpired)
      && (if ok then Dead(w') && !w'.logOpen else !Dead(w') && w'.logOpen == w.logOpen)
  {
    var u := w.(stopped := true);
    if Dead(u) {
      es := [Event(SawExit, w.now), Event(LogClosed, w.now)];
    } else if ExitsWithin(AfterTerm(t, u), GRACEFUL_STOP_TIMEOUT) {
      GraceTrace(t, u);
      es := [Event(TermSignal, w.now), Event(LogClosed, Terminate(t, w).0.now)];
    } else {
      KillTrace(t, u);
      WaitedFacts(AfterKill(t, u), GRACEFUL_STOP_TIMEOUT);
      var late := w.now + GRACEFUL_STOP_TIMEOUT;
      var (w', ok) := Terminate(t, w);
      es := [Event(TermSignal, w.now), Event(GraceExpired, late), Event(KillSignal, late),
             Event(if ok then LogClosed else KillWaitExpired, w'.now)];
    }
  }

  ghost predicate By(a: Option<real>, at: real) {
    a.Some? && a.value <= at
  }

  /** The earliest of three instants, those that there are. */
  ghost predicate Earliest(x: real, a: Option<real>, b: Option<real>, c: Option<real>) {
    && (a == Some(x) || b == Some(x) || c == Some(x))
    && (a.Some? ==> x <= a.value) && (b.Some? ==> x <= b.value) && (c.Some? ==> x <= c.value)
  }

  function Plus(now: real, delay: Option<real>): Option<real> {
    if delay.Some? then Some(now + delay.value) else None
  }

  /** When everything in a teardown happens. A process that is gone is not signalled. One that goes
      within the grace period, by itself or on the termination signal, is waited for exactly as long
      as it takes. Otherwise it is killed when the period is over, waited for in the same way, and
      given up after a second period. */
  lemma TeardownTimes(t: Temper, w: World)
    requires Sound(t) && !w.stopped
    ensures var (w', ok) := Terminate(t, w);
      var term := Plus(w.now, t.termDelay);
      if By(w.exitAt, w.now) then
        ok && w'.journal == w.journal + [Event(SawExit, w.now), Event(LogClosed, w.now)]
      else if By(w.exitAt, w.now + 10.0) || By(term, w.now + 10.0) then
        && ok && Earliest(w'.now, w.exitAt, term, None)
        && w'.journal == w.journal + [Event(TermSignal, w.now), Event(LogClosed, w'.now)]
      else
        KilledInTime(t, w, w', ok)
  {
    if By(w.exitAt, w.now) {
    } else if By(w.exitAt, w.now + 10.0) || By(Plus(w.now, t.termDelay), w.now + 10.0) {
      GraceTimes(t, w.(stopped := true));
    } else {
      KillEnds(t, w);
    }
  }

  ghost predicate KilledInTime(t: Temper, w: World, w': World, ok: bool) {
    var term, kill, grace, end := Plus(w.now, t.termDelay), Plus(w.now + 10.0, t.killDelay), w.now + 10.0, w.now + 20.0;
    && (ok <==> By(w.exitAt, end) || By(term, end) || By(kill, end))
    && (if ok then Earliest(w'.now, w.exitAt, term, kill) else w'.now == end)
    && w'.journal == w.journal
         + [Event(TermSignal, w.now), Event(GraceExpired, grace), Event(KillSignal, grace),
            Event(if ok then LogClosed else KillWaitExpired, w'.now)]
  }

  lemma KillEnds(t: Temper, w: World)
    requires Sound(t) && !w.stopped && !Dead(w)
    requires !By(w.exitAt, w.now + 10.0) && !By(Plus(w.now, t.termDelay), w.now + 10.0)
    ensures KilledInTime(t, w, Terminate(t, w).0, Terminate(t, w).1)
  {
    var v := w.(stopped := true);
    KillTimes(t, v);
    var ok, u := ExitsWithin(AfterKill(t, v), 10.0), Waited(AfterKill(t, v), 10.0);
    assert Terminate(t, w) == if ok then (CloseLog(u), true) else (Note(u, KillWaitExpired), false);
  }

  lemma GraceTimes(t: Temper, v: World)
    requires Sound(t) && !Dead(v)
    requires By(v.exitAt, v.now + 10.0) || By(Plus(v.now, t.termDelay), v.now + 10.0)
    ensures ExitsWithin(AfterTerm(t, v), 10.0)
    ensures var w' := CloseLog(Waited(AfterTerm(t, v), 10.0));
      && Earliest(w'.now, v.exitAt, Plus(v.now, t.termDelay), None)
      && w'.journal == v.journal + [Event(TermSignal, v.now), Event(LogClosed, w'.now)]
  {
    GraceTrace(t, v);
  }

  lemma KillTimes(t: Temper, v: World)
    requires Sound(t) && !Dead(v)
    requires !By(v.exitAt, v.now + 10.0) && !By(Plus(v.now, t.termDelay), v.now + 10.0)
    ensures !ExitsWithin(AfterTerm(t, v), 10.0)
    ensures var ok, w' := ExitsWithin(AfterKill(t, v), 10.0), Waited(AfterKill(t, v), 10.0);
      var term, kill, grace, end := Plus(v.now, t.termDelay), Plus(v.now + 10.0, t.killDelay), v.now + 10.0, v.now + 20.0;
      && (ok <==> By(v.exitAt, end) || By(term, end) || By(kill, end))
      && (if ok then Earliest(w'.now, v.exitAt, term, kill) else w'.now == end)
      && w'.journal == v.journal + [Event(TermSignal, v.now), Event(GraceExpired, grace), Event(KillSignal, grace)]
  {
    KillTrace(t, v);
    KilledExit(t, v);
    WaitedFacts(AfterKill(t, v), 10.0);
  }

  lemma KilledExit(t: Temper, v: World)
    requires !ExitsWithin(AfterTerm(t, v), 10.0)
    ensures AfterKill(t, v).exitAt
         == Sooner(Sooner(v.exitAt, Plus(v.now, t.termDelay)), Plus(v.now + 10.0, t.killDelay))
  {
  }

  /** A world as the constructor leaves it. */
  predicate Up(w: World) {
    !w.stopped && !w.closed && w.logOpen
  }

  lemma CloseStory(t: Temper, base: seq<Event>, w: World)
    requires Sound(t) && Story(base, w)
    ensures Story(base, Close(t, w).0)
  {
    if !w.closed {
      var w1 := Note(w, ChannelClosed).(closed := true);
      var es := w.journal[|base|..];
      assert w1.journal[|base|..] == es + [Event(ChannelClosed, w.now)];
      if w.stopped {
        assert (es + [Event(ChannelClosed, w.now)])[..|es|] == es;
      } else {
        var more := TerminateTrace(t, w1);
        var w2 := Terminate(t, w1).0;
        assert w2.journal[|base|..] == [Event(ChannelClosed, w.now)] + more;
        assert ([Event(ChannelClosed, w.now)] + more)[1..] == more;
      }
    }
  }

  lemma HookStory(t: Temper, base: seq<Event>, w: World)
    requires Sound(t) && Story(base, w)
    ensures Story(base, Terminate(t, w).0)
  {
    if !w.stopped {
      var more := TerminateTrace(t, w);
      assert Terminate(t, w).0.journal[|base|..] == more;
    }
  }

  lemma {:induction false} EveryStory(t: Temper, w: World, hs: seq<Happening>)
    requires Sound(t) && Up(w)
    ensures Story(w.journal, Live(t, w, hs))
    decreases |hs|
  {
    if hs != [] {
      var rest := Live(t, w, hs[..|hs| - 1]);
      EveryStory(t, w, hs[..|hs| - 1]);
      match hs[|hs| - 1] {
        case CloseCall => CloseStory(t, w.journal, rest);
        case AtExit => HookStory(t, w.journal, rest);
        case Pass(d) =>
        case ProcessDies =>
      }
    }
  }

  function Count(es: seq<Event>, kind: Kind): nat {
    if es == [] then 0 else (if es[0].kind == kind then 1 else 0) + Count(es[1..], kind)
  }

  lemma {:induction false} CountConcat(a: seq<Event>, b: seq<Event>, kind: Kind)
    ensures Count(a + b, kind) == Count(a, kind) + Count(b, kind)
  {
    if a == [] {
      assert a + b == b;
    } else {
      assert (a + b)[0] == a[0] && (a + b)[1..] == a[1..] + b;
      CountConcat(a[1..], b, kind);
    }
  }

  lemma CountCons(e: Event, es: seq<Event>, kind: Kind)
    ensures Count([e] + es, kind) == (if e.kind == kind then 1 else 0) + Count(es, kind)
  {
    assert ([e] + es)[1..] == es;
  }

  lemma CountTeardown(es: seq<Event>, kind: Kind)
    requires IsTeardown(es)
    ensures Count(es, kind) <= 1 && Count(es, ChannelClosed) == 0
  {
    forall k: Kind
      ensures Count(es, k)
           == (if |es| == 2 then (if es[0].kind == k then 1 else 0) + (if es[1].kind == k then 1 else 0)
               else (if es[0].kind == k then 1 else 0) + (if es[1].kind == k then 1 else 0)
                    + (if es[2].kind == k then 1 else 0) + (if es[3].kind == k then 1 else 0))
    {
      CountCons(es[0], es[1..], k);
      CountCons(es[1], es[2..], k);
      assert es == [es[0]] + es[1..] && es[1..] == [es[1]] + es[2..];
      if |es| == 4 {
        CountCons(es[2], es[3..], k);
        CountCons(es[3], [], k);
        assert es[2..] == [es[2]] + es[3..] && es[3..] == [es[3]] + [];
      }
    }
  }

  lemma CountAround(es: seq<Event>, e: Event, kind: Kind)
    requires IsTeardown(es) && e.kind == ChannelClosed
    ensures Count([e] + es, kind) <= 1 && Count([e] + es, ChannelClosed) == 1
    ensures Count(es + [e], kind) <= 1 && Count(es + [e], ChannelClosed) == 1
  {
    CountTeardown(es, kind);
    forall k: Kind
      ensures Count([e] + es, k) == Count(es + [e], k) == Count(es, k) + (if e.kind == k then 1 else 0)
    {
      CountCons(e, es, k);
      CountConcat(es, [e], k);
      CountCons(e, [], k);
      assert [e] + [] == [e];
    }
  }

  lemma CountStory(base: seq<Event>, w: World, kind: Kind)
    requires Story(base, w)
    ensures Count(w.journal[|base|..], kind) <= 1
    ensures w.closed ==> Count(w.journal[|base|..], ChannelClosed) == 1
  {
    var es := w.journal[|base|..];
    if w.stopped && !w.closed {
      CountTeardown(es, kind);
    } else if w.stopped && es[0].kind == ChannelClosed && TornDown(es[1..], w.logOpen) {
      CountAround(es[1..], es[0], kind);
      assert es == [es[0]] + es[1..];
    } else if w.stopped {
      CountAround(es[..|es| - 1], es[|es| - 1], kind);
      assert es == es[..|es| - 1] + [es[|es| - 1]];
    }
  }

  /** Whatever comes after start-up and in whatever order, the channel is closed at most once and
      the process is sent at most one termination and one kill; the log is closed at most once. */
  lemma {:induction false} AtMostOnce(t: Temper, w: World, hs: seq<Happening>, kind: Kind)
    requires Sound(t) && Up(w)
    ensures w.journal <= Live(t, w, hs).journal
    ensures Count(Live(t, w, hs).journal[|w.journal|..], kind) <= 1
  {
    EveryStory(t, w, hs);
    CountStory(w.journal, Live(t, w, hs), kind);
  }

  /** A kill comes only right after a full grace period that followed a termination signal, and
      nothing is signalled once the process has been seen to have exited. */
  ghost predicate Orderly(es: seq<Event>) {
    && (forall k :: 0 <= k < |es| && es[k].kind == KillSignal ==>
          && 2 <= k && es[k - 2].kind == TermSignal && es[k - 1].kind == GraceExpired
          && es[k].at == es[k - 2].at + 10.0)
    && (forall i, k :: 0 <= i < k < |es| && es[i].kind == SawExit ==>
          es[k].kind != TermSignal && es[k].kind != KillSignal)
  }

  lemma OrderlyTeardown(es: seq<Event>)
    requires IsTeardown(es)
    ensures Orderly(es)
  {
  }

  lemma OrderlyAround(es: seq<Event>, e: Event)
    requires Orderly(es) && e.kind == ChannelClosed
    ensures Orderly([e] + es) && Orderly(es + [e])
  {
  }

  lemma {:induction false} HistoriesAreOrderly(t: Temper, w: World, hs: seq<Happening>)
    requires Sound(t) && Up(w)
    ensures w.journal <= Live(t, w, hs).journal
    ensures Orderly(Live(t, w, hs).journal[|w.journal|..])
  {
    EveryStory(t, w, hs);
    OrderlyStory(w.journal, Live(t, w, hs));
  }

  lemma OrderlyStory(base: seq<Event>, w: World)
    requires Story(base, w)
    ensures Orderly(w.journal[|base|..])
  {
    var es := w.journal[|base|..];
    if w.stopped && !w.closed {
      OrderlyTeardown(es);
    } else if w.stopped && es[0].kind == ChannelClosed && TornDown(es[1..], w.logOpen) {
      OrderlyFront(es);
    } else if w.stopped {
      OrderlyBack(es);
    }
  }

  lemma OrderlyFront(es: seq<Event>)
    requires |es| > 0 && es[0].kind == ChannelClosed && IsTeardown(es[1..])
    ensures Orderly(es)
  {
    OrderlyTeardown(es[1..]);
    OrderlyAround(es[1..], es[0]);
    assert es == [es[0]] + es[1..];
  }

  lemma OrderlyBack(es: seq<Event>)
    requires |es| > 0 && es[|es| - 1].kind == ChannelClosed && IsTeardown(es[..|es| - 1])
    ensures Orderly(es)
  {
    OrderlyTeardown(es[..|es| - 1]);
    OrderlyAround(es[..|es| - 1], es[|es| - 1]);
    assert es == es[..|es| - 1] + [es[|es| - 1]];
  }

  // ----- Closing ---------------------------------------------------------------------------

  /** What stops the engine first in a history: a close, the exit hook, or nothing. */
  function FirstStop(hs: seq<Happening>): Option<Happening>
    decreases |hs|
  {
    if hs == [] then None
    else
      var first, last := FirstStop(hs[..|hs| - 1]), hs[|hs| - 1];
      if first.Some? then first
      else if last.CloseCall? || last.AtExit? then Some(last)
      else None
  }

  lemma TerminateGrows(t: Temper, w: World)
    requires Sound(t)
    ensures w.journal <= Terminate(t, w).0.journal
  {
    if !w.stopped {
      var es := TerminateTrace(t, w);
    }
  }

  lemma HappeningGrows(t: Temper, w: World, h: Happening)
    requires Sound(t)
    ensures w.journal <= Happens(t, w, h).journal
    ensures !w.stopped && !w.closed && h == CloseCall ==> Note(w, ChannelClosed).journal <= Happens(t, w, h).journal
    ensures !w.stopped && h == AtExit ==>
      |w.journal| < |Happens(t, w, h).journal| && Happens(t, w, h).journal[|w.journal|].kind != ChannelClosed
  {
    if !w.stopped {
      var es := TerminateTrace(t, w);
      var fs := TerminateTrace(t, Note(w, ChannelClosed).(closed := true));
    }
  }

  lemma {:induction false} FirstEvent(t: Temper, w: World, hs: seq<Happening>)
    requires Sound(t) && Up(w)
    ensures var end, first := Live(t, w, hs), FirstStop(hs);
      && w.journal <= end.journal
      && (first.None? ==> Up(end) && end.journal == w.journal)
      && (first.Some? ==>
            && (first == Some(CloseCall) || first == Some(AtExit))
            && |w.journal| < |end.journal|
            && (end.journal[|w.journal|].kind == ChannelClosed <==> first == Some(CloseCall)))
    decreases |hs|
  {
    if hs != [] {
      FirstEvent(t, w, hs[..|hs| - 1]);
      HappeningGrows(t, Live(t, w, hs[..|hs| - 1]), hs[|hs| - 1]);
    }
  }

  /** The channel is closed before the process is touched, unless the exit hook came first: in every
      history the journal begins with the closing exactly when a close is the first thing to stop the
      engine, and the whole teardown follows it; and only after a hook does it come at the end. */
  lemma {:induction false} ChannelClosesFirst(t: Temper, w: World, hs: seq<Happening>)
    requires Sound(t) && Up(w)
    ensures w.journal <= Live(t, w, hs).journal
    ensures var es := Live(t, w, hs).journal[|w.journal|..];
      && (es == [] <==> FirstStop(hs) == None)
      && (es != [] && es[0].kind == ChannelClosed <==> FirstStop(hs) == Some(CloseCall))
      && (FirstStop(hs) == Some(CloseCall) ==> IsTeardown(es[1..]))
      && (FirstStop(hs) == Some(AtExit) ==>
            IsTeardown(es) || (es != [] && es[|es| - 1].kind == ChannelClosed && IsTeardown(es[..|es| - 1])))
  {
    FirstEvent(t, w, hs);
    EveryStory(t, w, hs);
    var es := Live(t, w, hs).journal[|w.journal|..];
    if es != [] {
      assert es[0] == Live(t, w, hs).journal[|w.journal|];
    }
  }

  /** The process will be gone within both waits: it exits by itself, heeds the termination signal
      within both, or heeds the kill within the second. */
  predicate Yields(t: Temper, w: World) {
    || (w.exitAt.Some? && w.exitAt.value <= w.now + 20.0)
    || (t.termDelay.Some? && t.termDelay.value <= 20.0)
    || (t.killDelay.Some? && t.killDelay.value <= 10.0)
  }

  /** A teardown succeeds exactly when the process yields at that moment. */
  lemma TerminateSucceedsExactlyWhen(t: Temper, w: World)
    requires Sound(t) && !w.stopped
    ensures var (w', ok) := Terminate(t, w);
      && (ok <==> Yields(t, w)) && w'.stopped && w'.closed == w.closed
      && w'.now <= w.now + 20.0
      && (if ok then Dead(w') && !w'.logOpen else !Dead(w') && w'.logOpen == w.logOpen)
  {
    var es := TerminateTrace(t, w);
    var v := w.(stopped := true);
    WaitedFacts(AfterTerm(t, v), GRACEFUL_STOP_TIMEOUT);
    if !Dead(v) && !ExitsWithin(AfterTerm(t, v), GRACEFUL_STOP_TIMEOUT) {
      KillTrace(t, v);
      WaitedFacts(AfterKill(t, v), GRACEFUL_STOP_TIMEOUT);
    }
  }

  /** The first close of a running engine succeeds, leaving the process dead and the log closed,
      exactly when the process yields. */
  lemma CloseSucceedsExactlyWhen(t: Temper, w: World)
    requires Sound(t) && Up(w)
    ensures var (w', ok) := Close(t, w);
      && (ok <==> Yields(t, w))
      && (ok <==> Dead(w') && !w'.logOpen)
      && w.journal + [Event(ChannelClosed, w.now)] <= w'.journal
      && w'.closed && w'.now <= w.now + 20.0
  {
    TerminateSucceedsExactlyWhen(t, Note(w, ChannelClosed).(closed := true));
    HappeningGrows(t, w, CloseCall);
  }

  /** When it does not, the failure is reported once: in every history that follows each close, and
      each call of the exit hook, returns normally, and nothing is signalled, noted or closed any
      more, although the log is open and the process may still be alive. */
  lemma LaterClosesAreSilent(t: Temper, w: World, hs: seq<Happening>)
    requires Sound(t) && Up(w) && !Yields(t, w)
    ensures var (failed, ok) := Close(t, w);
      var end := Live(t, failed, hs);
      && !ok && !Dead(failed) && end.journal == failed.journal && end.logOpen
      && Close(t, end) == (end, true) && Terminate(t, end) == (end, true)
  {
    CloseSucceedsExactlyWhen(t, w);
    var es := TerminateTrace(t, Note(w, ChannelClosed).(closed := true));
    ClosedIsFinal(t, Close(t, w).0, hs);
  }

  lemma {:induction false} ClosedIsFinal(t: Temper, w: World, hs: seq<Happening>)
    requires w.stopped && w.closed
    ensures var end := Live(t, w, hs); end == w.(now := end.now, exitAt := end.exitAt)
    decreases |hs|
  {
    if hs != [] {
      ClosedIsFinal(t, w, hs[..|hs| - 1]);
    }
  }

  /** What a process that yields is good for at any time: it still yields, or it is down for good. */
  ghost predicate YieldsOrDown(t: Temper, w: World) {
    if w.stopped then Dead(w) && !w.logOpen else !w.closed && Yields(t, w)
  }

  lemma HappeningKeepsYielding(t: Temper, w: World, h: Happening)
    requires Sound(t) && YieldsOrDown(t, w)
    ensures YieldsOrDown(t, Happens(t, w, h))
    ensures w.closed || h == CloseCall ==> Happens(t, w, h).closed
  {
    if !w.stopped {
      TerminateSucceedsExactlyWhen(t, w);
      TerminateSucceedsExactlyWhen(t, Note(w, ChannelClosed).(closed := true));
    }
  }

  lemma {:induction false} StaysYielding(t: Temper, w: World, hs: seq<Happening>)
    requires Sound(t) && YieldsOrDown(t, w)
    ensures YieldsOrDown(t, Live(t, w, hs))
    ensures CloseCall in hs ==> Live(t, w, hs).closed
    decreases |hs|
  {
    if hs != [] {
      var rest, h := hs[..|hs| - 1], hs[|hs| - 1];
      assert hs == rest + [h];
      StaysYielding(t, w, rest);
      HappeningKeepsYielding(t, Live(t, w, rest), h);
    }
  }

  /** After any `close` of a process that yielded to begin with, wherever the close comes in the
      history and whatever came before it, everything is down: the channel is closed, exactly once,
      the process is dead, and so is the log. */
  lemma {:induction false} DownAfterAnyClose(t: Temper, w: World, hs: seq<Happening>)
    requires Sound(t) && Up(w) && Yields(t, w) && CloseCall in hs
    ensures var end := Live(t, w, hs);
      && end.closed && Dead(end) && !end.logOpen
      && w.journal <= end.journal && Count(end.journal[|w.journal|..], ChannelClosed) == 1
  {
    StaysYielding(t, w, hs);
    EveryStory(t, w, hs);
    CountStory(w.journal, Live(t, w, hs), ChannelClosed);
  }

  ghost predicate Down(w: World) {
    w.closed && Dead(w) && !w.logOpen
  }

  /** Every close leaves everything down, in every history, exactly when the process yields. */
  lemma {:induction false} EveryCloseWorksExactlyWhen(t: Temper, w: World)
    requires Sound(t) && Up(w)
    ensures (forall hs: seq<Happening> :: CloseCall in hs ==> Down(Live(t, w, hs))) <==> Yields(t, w)
  {
    if Yields(t, w) {
      forall hs: seq<Happening> | CloseCall in hs ensures Down(Live(t, w, hs)) {
        DownAfterAnyClose(t, w, hs);
      }
    } else {
      CloseSucceedsExactlyWhen(t, w);
      var hs := [CloseCall];
      assert hs[..0] == [] && Live(t, w, hs) == Close(t, w).0;
      assert CloseCall in hs && !Down(Live(t, w, hs));
    }
  }
}
