/** `Run.wait_running`: polling a status against a deadline on a monotonic clock. The environment
    decides how long each status call takes, what it answers, and how long past the request each
    sleep lasts. */
module Waiting {
  import opened Prelude
  import opened Errors

  /** The fixed timeout of each status call; it does not shrink as the deadline nears. */
  const STATUS_TIMEOUT := 5.0

  datatype Status = UNSPECIFIED | RUNNING | STOPPED | DEGRADED | RECOVERING

  datatype RunStatus = RunStatus(status: Status, error: string, stoppedReason: string)

  /** A failed call raises its translated error, or `None` where translation itself raises. */
  datatype Answer = Observed(status: RunStatus) | CallFailed(error: Option<Report>)

  datatype Poll = Poll(took: real, answer: Answer, overslept: real)

  type Environment = nat -> Poll

  /** Status calls honour their timeout, and no sleep ends early or more than `slack` late. */
  ghost predicate WellBehaved(env: Environment, slack: real) {
    forall k :: 0.0 <= env(k).took <= STATUS_TIMEOUT && 0.0 <= env(k).overslept <= slack
  }

  /** How waiting ends: the running status, an error because the pipeline degraded, the error of a
      status call, the timeout with the last status seen, or the ValueError of a negative sleep. */
  datatype Outcome =
    | Running(status: RunStatus)
    | PipelineDegraded(reason: string)
    | Propagated(error: Option<Report>)
    | WaitTimeout(last: Option<RunStatus>)
    | SleepRejected

  datatype Loop =
    | Polling(now: real, polls: nat, last: Option<RunStatus>)
    | Done(outcome: Outcome, polls: nat, end: real)

  /** One turn of the loop. */
  function Turn(env: Environment, deadline: real, interval: real, s: Loop): Loop {
    if s.Done? then s
    else if s.now >= deadline then Done(WaitTimeout(s.last), s.polls, s.now)
    else
      var p := env(s.polls);
      var now := s.now + p.took;
      match p.answer
      case CallFailed(error) => Done(Propagated(error), s.polls + 1, now)
      case Observed(status) =>
        if status.status == RUNNING then Done(Running(status), s.polls + 1, now)
        else if status.status == DEGRADED then Done(PipelineDegraded(status.error), s.polls + 1, now)
        else if interval < 0.0 then Done(SleepRejected, s.polls + 1, now)
        else Polling(now + interval + p.overslept, s.polls + 1, Some(status))
  }

  function After(env: Environment, start: real, timeout: real, interval: real, n: nat): Loop {
    if n == 0 then Polling(start, 0, None)
    else Turn(env, start + timeout, interval, After(env, start, timeout, interval, n - 1))
  }

  // ----- What decides ----------------------------------------------------------------------

  /** The answers that end the wait by themselves. */
  function Verdict(a: Answer): Option<Outcome> {
    match a
    case CallFailed(error) => Some(Propagated(error))
    case Observed(s) =>
      if s.status == RUNNING then Some(Running(s))
      else if s.status == DEGRADED then Some(PipelineDegraded(s.error))
      else None
  }

  /** The meaning of a sequence of answers: the first decisive one decides, and without one it is
      a timeout that names the last status. */
  function Decide(answers: seq<Answer>, last: Option<RunStatus>): Outcome {
    if answers == [] then WaitTimeout(last)
    else if Verdict(answers[0]).Some? then Verdict(answers[0]).value
    else Decide(answers[1..], Some(answers[0].status))
  }

  function Answers(env: Environment, n: nat): (answers: seq<Answer>)
    ensures |answers| == n && forall k :: 0 <= k < n ==> answers[k] == env(k).answer
  {
    seq(n, k requires 0 <= k => env(k).answer)
  }

  lemma {:induction false} DecideMore(answers: seq<Answer>, a: Answer, last: Option<RunStatus>)
    requires forall k :: 0 <= k < |answers| ==> Verdict(answers[k]).None?
    ensures Decide(answers + [a], last)
         == if Verdict(a).Some? then Verdict(a).value else WaitTimeout(Some(a.status))
  {
    if answers != [] {
      assert (answers + [a])[1..] == answers[1..] + [a];
      DecideMore(answers[1..], a, Some(answers[0].status));
    }
  }

  /** What holds while polling goes on, and what is left of it when it ends. */
  ghost predicate Consistent(env: Environment, start: real, timeout: real, interval: real, s: Loop) {
    && (forall k :: 0 <= k < s.polls - (if s.Done? then 1 else 0) ==> Verdict(env(k).answer).None?)
    && match s
       case Polling(now, polls, last) =>
         && last == (if polls == 0 then None else Some(env(polls - 1).answer.status))
         && (polls == 0 ==> now == start)
         && (polls > 0 ==> Verdict(env(polls - 1).answer).None? && 0.0 <= interval && start < start + timeout)
       case Done(outcome, polls, end) =>
         match outcome
         case WaitTimeout(last) =>
           && start + timeout <= end
           && (polls == 0 ==> last == None && end == start)
           && (polls > 0 ==> Verdict(env(polls - 1).answer).None? && last == Some(env(polls - 1).answer.status))
         case SleepRejected => polls > 0 && Verdict(env(polls - 1).answer).None? && interval < 0.0
         case _ => polls > 0 && Verdict(env(polls - 1).answer) == Some(outcome)
  }

  lemma {:induction false} AlwaysConsistent(env: Environment, start: real, timeout: real, interval: real, n: nat)
    ensures Consistent(env, start, timeout, interval, After(env, start, timeout, interval, n))
  {
    if n > 0 {
      AlwaysConsistent(env, start, timeout, interval, n - 1);
    }
  }

  /** Waiting refines the pure decision on the answers it saw: running returns, degraded raises, a
      failed call propagates, and otherwise the timeout names the last status, or none. Stopped
      and recovering never decide. With a non-negative interval there is no other end. */
  lemma RefinesDecision(env: Environment, start: real, timeout: real, interval: real, n: nat)
    requires After(env, start, timeout, interval, n).Done? && 0.0 <= interval
    ensures var r := After(env, start, timeout, interval, n);
      r.outcome == Decide(Answers(env, r.polls), None)
  {
    AlwaysConsistent(env, start, timeout, interval, n);
    DecisionOf(env, start, timeout, interval, After(env, start, timeout, interval, n));
  }

  lemma DecisionOf(env: Environment, start: real, timeout: real, interval: real, r: Loop)
    requires Consistent(env, start, timeout, interval, r) && r.Done? && 0.0 <= interval
    ensures r.outcome == Decide(Answers(env, r.polls), None)
  {
    if r.polls > 0 {
      var answers, a := Answers(env, r.polls - 1), env(r.polls - 1).answer;
      assert Answers(env, r.polls) == answers + [a];
      DecideMore(answers, a, None);
    }
  }

  /** The timeout is never reported before it has passed; without any budget it is reported at
      once, without a poll. */
  lemma TimeoutIsNeverEarly(env: Environment, start: real, timeout: real, interval: real, n: nat)
    requires After(env, start, timeout, interval, n).Done?
    ensures var r := After(env, start, timeout, interval, n);
      && (r.outcome.WaitTimeout? ==> start + timeout <= r.end)
      && (timeout <= 0.0 <==> r.polls == 0)
      && (r.polls == 0 ==> r == Done(WaitTimeout(None), 0, start))
  {
    AlwaysConsistent(env, start, timeout, interval, n);
    NoBudgetNoPoll(env, start, timeout, interval, n);
  }

  lemma {:induction false} NoBudgetNoPoll(env: Environment, start: real, timeout: real, interval: real, n: nat)
    ensures var s := After(env, start, timeout, interval, n);
      && (timeout <= 0.0 ==> s.polls == 0)
      && (s.Done? && timeout > 0.0 ==> s.polls > 0)
  {
    if n > 0 {
      NoBudgetNoPoll(env, start, timeout, interval, n - 1);
      AlwaysConsistent(env, start, timeout, interval, n - 1);
    }
  }

  /** What each outcome says: the last answer was that the pipeline runs, or that it is degraded, with
      its error, or was a failed call, with its error; or the time is up, and the last answer, if
      there was one, said something else. All earlier answers said something else. */
  lemma EndsAreTruthful(env: Environment, start: real, timeout: real, interval: real, n: nat)
    requires After(env, start, timeout, interval, n).Done?
    ensures var r := After(env, start, timeout, interval, n);
      && (forall k :: 0 <= k < r.polls - 1 ==> SaysNothing(env(k).answer))
      && match r.outcome
         case Running(status) => r.polls > 0 && env(r.polls - 1).answer == Observed(status) && status.status == RUNNING
         case PipelineDegraded(reason) =>
           && r.polls > 0 && env(r.polls - 1).answer.Observed?
           && var status := env(r.polls - 1).answer.status; status.status == DEGRADED && status.error == reason
         case Propagated(error) => r.polls > 0 && env(r.polls - 1).answer == CallFailed(error)
         case WaitTimeout(last) =>
           && start + timeout <= r.end
           && (r.polls == 0 ==> last == None)
           && (r.polls > 0 ==> SaysNothing(env(r.polls - 1).answer) && last == Some(env(r.polls - 1).answer.status))
         case SleepRejected => r.polls > 0 && SaysNothing(env(r.polls - 1).answer) && interval < 0.0
  {
    AlwaysConsistent(env, start, timeout, interval, n);
    var r := After(env, start, timeout, interval, n);
    forall k | 0 <= k < r.polls - 1 ensures SaysNothing(env(k).answer) {
      assert Verdict(env(k).answer).None?;
    }
  }

  /** An answer on which waiting goes on. */
  predicate SaysNothing(a: Answer) {
    a.Observed? && (a.status.status == UNSPECIFIED || a.status.status == STOPPED || a.status.status == RECOVERING)
  }

  // ----- How long --------------------------------------------------------------------------

  /** Every poll starts before the deadline, so it ends within one call timeout, one interval and
      one late wake-up after it. */
  lemma {:induction false} EndsSoonAfterDeadline(env: Environment, start: real, timeout: real, interval: real, slack: real, n: nat)
    requires WellBehaved(env, slack) && 0.0 <= interval
    ensures var s := After(env, start, timeout, interval, n);
      var t, deadline := if s.Done? then s.end else s.now, if 0.0 < timeout then start + timeout else start;
      && t < deadline + 5.0 + interval + slack
      && (s.Done? && !s.outcome.WaitTimeout? ==> t < deadline + 5.0)
  {
    assert 0.0 <= env(0).overslept <= slack;
    if n > 0 {
      EndsSoonAfterDeadline(env, start, timeout, interval, slack, n - 1);
      var s := After(env, start, timeout, interval, n - 1);
      assert 0.0 <= env(s.polls).took <= STATUS_TIMEOUT && 0.0 <= env(s.polls).overslept <= slack;
    }
  }

  function Ceil(x: real): int {
    -((-x).Floor)
  }

  lemma CeilOfQuotient(x: real, interval: real, k: nat)
    requires 0.0 < interval && k as real * interval < x
    ensures k < Ceil(x / interval)
  {
    assert k as real < x / interval by {
      if x / interval <= k as real {
        assert x / interval * interval == x;
        MulMono(x / interval, k as real, interval);
      }
    }
    assert Ceil(x / interval) as real >= x / interval;
  }

  lemma MulMono(a: real, b: real, c: real)
    requires a <= b && 0.0 < c
    ensures a * c <= b * c
  {
  }

  /** `x` added up `n` times; a product the solver need not multiply out. */
  function Times(n: nat, x: real): real {
    if n == 0 then 0.0 else Times(n - 1, x) + x
  }

  lemma {:induction false} TimesIsProduct(n: nat, x: real)
    ensures Times(n, x) == n as real * x
  {
    if n > 0 {
      TimesIsProduct(n - 1, x);
      MulStep((n - 1) as real, x);
      assert (n - 1) as real + 1.0 == n as real;
    }
  }

  lemma MulStep(a: real, x: real)
    ensures (a + 1.0) * x == a * x + x
  {
  }

  lemma {:induction false} TimesGrows(n: nat, x: real, y: real)
    requires x < y && n > 0
    ensures Times(n, x) < Times(n, y)
  {
    if n > 1 {
      TimesGrows(n - 1, x, y);
    }
  }

  /** Every real can be split into equal parts. */
  lemma {:induction false} Share(x: real, n: nat) returns (part: real)
    requires n > 0
    ensures Times(n, part) == x
  {
    part := x / n as real;
    TimesIsProduct(n, part);
    assert n as real * part == x;
  }

  ghost predicate Takes(env: Environment, tick: real) {
    forall k :: tick <= env(k).took
  }

  /** Each poll begins at least one call and one interval after the one before. */
  lemma {:induction false} PollsAreSpaced(
      env: Environment, start: real, timeout: real, interval: real, slack: real, tick: real, n: nat)
    requires WellBehaved(env, slack) && Takes(env, tick) && 0.0 <= interval
    ensures var s := After(env, start, timeout, interval, n);
      && (s.Polling? ==> s.polls == n && start + Times(n, interval + tick) <= s.now)
      && (s.polls > 0 ==> Times(s.polls - 1, interval + tick) < timeout)
  {
    if n > 0 {
      PollsAreSpaced(env, start, timeout, interval, slack, tick, n - 1);
      var s := After(env, start, timeout, interval, n - 1);
      assert tick <= env(s.polls).took && 0.0 <= env(s.polls).overslept;
    }
  }

  lemma {:induction false} FewerThanCeil(k: nat, x: real, interval: real)
    requires 0.0 < interval && Times(k, interval) < x
    ensures k < Ceil(x / interval)
  {
    TimesIsProduct(k, interval);
    CeilOfQuotient(x, interval, k);
  }

  /** With calls that take at least `tick`, at most `ceil(timeout / (interval + tick))` polls. */
  lemma PollBound(env: Environment, start: real, timeout: real, interval: real, slack: real, tick: real, n: nat)
    requires WellBehaved(env, slack) && Takes(env, tick)
    requires 0.0 <= interval && 0.0 < interval + tick && 0.0 < timeout
    ensures After(env, start, timeout, interval, n).polls <= Ceil(timeout / (interval + tick))
  {
    PollsAreSpaced(env, start, timeout, interval, slack, tick, n);
    var s := After(env, start, timeout, interval, n);
    FewerThanCeil(if s.polls > 0 then s.polls - 1 else 0, timeout, interval + tick);
  }

  /** Waiting is over after that many turns and one more: with a positive interval however fast the
      calls are, and with any interval when they take some minimum of time. */
  lemma Terminates(env: Environment, start: real, timeout: real, interval: real, slack: real, tick: real)
    requires WellBehaved(env, slack) && Takes(env, tick)
    requires 0.0 <= interval && 0.0 < interval + tick && 0.0 < timeout
    ensures 0 <= Ceil(timeout / (interval + tick))
    ensures After(env, start, timeout, interval, Ceil(timeout / (interval + tick)) + 1).Done?
  {
    FewerThanCeil(0, timeout, interval + tick);
    var n := Ceil(timeout / (interval + tick));
    PollsAreSpaced(env, start, timeout, interval, slack, tick, n + 1);
    PollBound(env, start, timeout, interval, slack, tick, n + 1);
  }

  // ----- Environments that reach the limits ------------------------------------------------

  /** The longest time from one poll to the next. */
  function Lap(interval: real, slack: real): real {
    interval + 5.0 + slack
  }

  /** A server that never decides; its first `m` calls, with the sleep's delay, take `x` each, and
      the later ones as long as they can. */
  function Laps(m: nat, x: real, slack: real): Environment {
    k =>
      var t := if k < m then x else STATUS_TIMEOUT + slack;
      Poll(if t <= STATUS_TIMEOUT then t else STATUS_TIMEOUT, Observed(RunStatus(RECOVERING, "", "")),
           if t <= STATUS_TIMEOUT then 0.0 else t - STATUS_TIMEOUT)
  }

  lemma LapsBehave(m: nat, x: real, slack: real)
    requires 0.0 <= x <= STATUS_TIMEOUT + slack && 0.0 <= slack
    ensures WellBehaved(Laps(m, x, slack), slack)
  {
  }

  lemma {:induction false} LapsLooks(start: real, timeout: real, interval: real, m: nat, x: real, slack: real, k: nat)
    requires 0.0 <= interval && 0.0 <= x && 0.0 < timeout && k <= m
    requires k > 0 ==> Times(k - 1, interval + x) < timeout
    ensures var s := After(Laps(m, x, slack), start, timeout, interval, k);
      s.Polling? && s.polls == k && s.now == start + Times(k, interval + x)
  {
    if k > 0 {
      LapsLooks(start, timeout, interval, m, x, slack, k - 1);
    }
  }

  ghost predicate Ends(env: Environment, start: real, timeout: real, interval: real) {
    exists n :: After(env, start, timeout, interval, n).Done?
  }

  /** Status calls behave and take time, each as little as it likes. */
  ghost predicate Moves(env: Environment, slack: real) {
    WellBehaved(env, slack) && forall k :: 0.0 < env(k).took
  }

  ghost predicate EndsBy(n: nat, start: real, timeout: real, interval: real, slack: real) {
    forall env :: Moves(env, slack) ==> After(env, start, timeout, interval, n).Done?
  }

  /** The number of turns is bounded in advance exactly when the interval is not zero or there is no
      time to wait at all. With an interval of zero it is the calls that use up the time. */
  lemma {:induction false} BoundedExactlyWhen(start: real, timeout: real, interval: real, slack: real)
    requires 0.0 <= slack
    ensures (exists n: nat :: EndsBy(n, start, timeout, interval, slack)) <==> (interval != 0.0 || timeout <= 0.0)
  {
    if timeout <= 0.0 || interval < 0.0 {
      forall env | Moves(env, slack) ensures After(env, start, timeout, interval, 1).Done? {
        assert After(env, start, timeout, interval, 0) == Polling(start, 0, None);
      }
      assert EndsBy(1, start, timeout, interval, slack);
    } else if interval > 0.0 {
      FewerThanCeil(0, timeout, interval + 0.0);
      var n: nat := Ceil(timeout / (interval + 0.0)) + 1;
      forall env | Moves(env, slack) ensures After(env, start, timeout, interval, n).Done? {
        Terminates(env, start, timeout, interval, slack, 0.0);
      }
      assert EndsBy(n, start, timeout, interval, slack);
    } else {
      forall n: nat ensures !EndsBy(n, start, timeout, 0.0, slack) {
        var env := QuickCalls(start, timeout, slack, n);
      }
    }
  }

  /** However many turns, calls that are quick enough do not use up the time in them. */
  lemma {:induction false} QuickCalls(start: real, timeout: real, slack: real, n: nat) returns (env: Environment)
    requires 0.0 < timeout && 0.0 <= slack
    ensures Moves(env, slack) && After(env, start, timeout, 0.0, n).Polling?
  {
    var part := Share(timeout, n + 1);
    TimesIsZero(n + 1);
    if part < 0.0 { TimesGrows(n + 1, part, 0.0); }
    var x := if part <= STATUS_TIMEOUT then part else STATUS_TIMEOUT;
    env := Laps(n, x, slack);
    LapsBehave(n, x, slack);
    if n > 0 {
      if x < part { TimesGrows(n, x, part); }
      assert Times(n, x) == Times(n - 1, x) + x;
    }
    LapsLooks(start, timeout, 0.0, n, x, slack, n);
  }

  lemma {:induction false} TimesIsZero(n: nat)
    ensures Times(n, 0.0) == 0.0
  {
    if n > 0 { TimesIsZero(n - 1); }
  }

  /** All that delays a poll: after `n` polls the clock is at most `n` laps on. */
  lemma {:induction false} PollsAreNear(env: Environment, start: real, timeout: real, interval: real, slack: real, n: nat)
    requires WellBehaved(env, slack) && 0.0 <= interval
    ensures var s := After(env, start, timeout, interval, n);
      (if s.Done? then s.end else s.now) <= start + Times(s.polls, Lap(interval, slack))
  {
    if n > 0 {
      PollsAreNear(env, start, timeout, interval, slack, n - 1);
      var s := After(env, start, timeout, interval, n - 1);
      assert env(s.polls).took <= STATUS_TIMEOUT && 0.0 <= env(s.polls).overslept <= slack;
    }
  }

  /** Waiting can end all but `eps` of a whole lap after the deadline. */
  ghost predicate Overshoots(start: real, timeout: real, interval: real, slack: real, eps: real) {
    exists env, n: nat :: OvershootsIn(env, n, start, timeout, interval, slack, eps)
  }

  ghost predicate OvershootsIn(env: Environment, n: nat, start: real, timeout: real, interval: real, slack: real, eps: real) {
    && WellBehaved(env, slack)
    && var r := After(env, start, timeout, interval, n);
       r.Done? && start + timeout + Lap(interval, slack) - eps <= r.end
  }

  /** Some number of shortest laps stays short of the deadline and as many longest ones come within
      `eps` of it. */
  ghost predicate LapsFit(timeout: real, interval: real, slack: real, eps: real) {
    exists m: nat :: Times(m, interval) < timeout && timeout - eps <= Times(m, Lap(interval, slack))
  }

  /** How late waiting can end, for every budget and every interval. */
  lemma {:induction false} OvershootExactlyWhen(start: real, timeout: real, interval: real, slack: real, eps: real)
    requires 0.0 <= interval && 0.0 <= slack && 0.0 < timeout && 0.0 < eps <= Lap(interval, slack)
    ensures Overshoots(start, timeout, interval, slack, eps) <==> LapsFit(timeout, interval, slack, eps)
  {
    if env, n: nat :| OvershootsIn(env, n, start, timeout, interval, slack, eps) {
      OvershootNeedsLaps(env, n, start, timeout, interval, slack, eps);
    }
    if m: nat :| Times(m, interval) < timeout && timeout - eps <= Times(m, Lap(interval, slack)) {
      var env := LapsOvershoot(start, timeout, interval, slack, eps, m);
      assert OvershootsIn(env, m + 2, start, timeout, interval, slack, eps);
    }
  }

  lemma {:induction false} OvershootNeedsLaps(
      env: Environment, n: nat, start: real, timeout: real, interval: real, slack: real, eps: real)
    requires 0.0 <= interval && 0.0 < timeout && OvershootsIn(env, n, start, timeout, interval, slack, eps)
    ensures LapsFit(timeout, interval, slack, eps)
  {
    NoBudgetNoPoll(env, start, timeout, interval, n);
    PollsAreSpaced(env, start, timeout, interval, slack, 0.0, n);
    PollsAreNear(env, start, timeout, interval, slack, n);
    var m: nat := After(env, start, timeout, interval, n).polls - 1;
    assert interval + 0.0 == interval;
    assert Times(m, interval) < timeout && timeout - eps <= Times(m, Lap(interval, slack));
  }

  lemma {:induction false} LapsOvershoot(start: real, timeout: real, interval: real, slack: real, eps: real, m: nat)
    returns (env: Environment)
    requires 0.0 <= interval && 0.0 <= slack && 0.0 < eps <= Lap(interval, slack) && 0.0 < timeout
    requires Times(m, interval) < timeout && timeout - eps <= Times(m, Lap(interval, slack))
    ensures OvershootsIn(env, m + 2, start, timeout, interval, slack, eps)
  {
    var wait, x := SplitWait(timeout, interval, slack, eps, m);
    env := Laps(m, x, slack);
    LapsBehave(m, x, slack);
    if m > 0 { assert Times(m, interval + x) == Times(m - 1, interval + x) + (interval + x); }
    LapsLooks(start, timeout, interval, m, x, slack, m);
    var s := After(env, start, timeout, interval, m + 1);
    assert s.Polling? && s.now == start + wait + Lap(interval, slack);
  }

  /** The instant to poll at, and the laps that lead to it. */
  lemma {:induction false} SplitWait(timeout: real, interval: real, slack: real, eps: real, m: nat) returns (wait: real, x: real)
    requires 0.0 <= interval && 0.0 <= slack && 0.0 < eps
    requires Times(m, interval) < timeout && timeout - eps <= Times(m, Lap(interval, slack))
    ensures 0.0 <= x <= STATUS_TIMEOUT + slack
    ensures Times(m, interval + x) == wait && timeout - eps <= wait < timeout
  {
    var low, lap := Times(m, interval), Lap(interval, slack);
    wait := if low <= timeout - eps then timeout - eps else low;
    if m == 0 {
      x := 0.0;
    } else {
      TimesGrows(m, interval, lap);
      var part := Share(wait, m);
      if part < interval { TimesGrows(m, part, interval); }
      if lap < part { TimesGrows(m, lap, part); }
      x := part - interval;
      assert interval + x == part;
    }
  }

  lemma {:induction false} FirstToReach(x: real, target: real, k: nat) returns (m: nat)
    requires target <= Times(k, x)
    ensures target <= Times(m, x) && (m > 0 ==> Times(m - 1, x) < target)
  {
    if k == 0 || Times(k - 1, x) < target {
      m := k;
    } else {
      m := FirstToReach(x, target, k - 1);
    }
  }

  lemma {:induction false} ShortLapsLag(m: nat, interval: real, more: real)
    requires 2 <= m && 0.0 <= interval <= more
    ensures Times(m, interval) <= Times(m - 1, interval + more)
  {
    assert Times(m, interval) == Times(m - 1, interval) + interval;
    if m == 2 {
      assert Times(1, interval) == Times(0, interval) + interval;
      assert Times(1, interval + more) == Times(0, interval + more) + (interval + more);
    } else {
      ShortLapsLag(m - 1, interval, more);
    }
  }

  /** In particular the bound above cannot be lowered for any budget longer than the interval, as
      long as the interval is no longer than a call with a late wake-up: whatever `eps`, waiting can
      end all but `eps` of a lap after the deadline. */
  lemma {:induction false} OvershootIsTight(start: real, timeout: real, interval: real, slack: real, eps: real)
    requires 0.0 <= interval <= 5.0 + slack && 0.0 <= slack
    requires interval < timeout && 0.0 < eps <= Lap(interval, slack)
    ensures Overshoots(start, timeout, interval, slack, eps)
  {
    var lap := Lap(interval, slack);
    var k: nat := if Ceil((timeout - eps) / lap) < 0 then 0 else Ceil((timeout - eps) / lap);
    if Times(k, lap) < timeout - eps { FewerThanCeil(k, timeout - eps, lap); }
    var m := FirstToReach(lap, timeout - eps, k);
    if m >= 2 {
      ShortLapsLag(m, interval, STATUS_TIMEOUT + slack);
      assert lap == interval + (STATUS_TIMEOUT + slack);
    } else if m == 1 {
      assert Times(1, interval) == Times(0, interval) + interval;
    }
    assert Times(m, interval) < timeout;
    OvershootExactlyWhen(start, timeout, interval, slack, eps);
  }

  // ----- The method ------------------------------------------------------------------------

  class Clock {
    var now: real

    constructor (now: real)
      ensures this.now == now
    {
      this.now := now;
    }
  }

  lemma {:induction false} DoneStays(env: Environment, start: real, timeout: real, interval: real, n: nat, m: nat)
    requires After(env, start, timeout, interval, n).Done? && n <= m
    ensures After(env, start, timeout, interval, m).Done?
    decreases m
  {
    if n < m {
      DoneStays(env, start, timeout, interval, n, m - 1);
    }
  }

  /** `wait_running(timeout=timeout, poll_interval=interval)`, wherever it ends at all. */
  method WaitRunning(env: Environment, clock: Clock, timeout: real, interval: real)
    returns (outcome: Outcome, polls: nat, ghost turns: nat)
    requires Ends(env, clock.now, timeout, interval)
    modifies clock
    ensures After(env, old(clock.now), timeout, interval, turns) == Done(outcome, polls, clock.now)
  {
    var deadline := clock.now + timeout;
    ghost var start := clock.now;
    ghost var bound: nat :| After(env, start, timeout, interval, bound).Done?;
    var last: Option<RunStatus> := None;
    polls, turns := 0, 0;
    while clock.now < deadline
      invariant After(env, start, timeout, interval, turns) == Polling(clock.now, polls, last)
      decreases bound - turns
    {
      if bound <= turns {
        DoneStays(env, start, timeout, interval, bound, turns);
      }
      var p := env(polls);
      clock.now := clock.now + p.took;
      polls, turns := polls + 1, turns + 1;
      match p.answer {
        case CallFailed(error) =>
          outcome := Propagated(error);
          return;
        case Observed(status) =>
          last := Some(status);
          if status.status == RUNNING {
            outcome := Running(status);
            return;
          }
          if status.status == DEGRADED {
            outcome := PipelineDegraded(status.error);
            return;
          }
      }
      if interval < 0.0 {
        outcome := SleepRejected;
        return;
      }
      clock.now := clock.now + interval + p.overslept;
    }
    outcome, turns := WaitTimeout(last), turns + 1;
  }
}
