/** What every run of any number of interleaved submissions guarantees. */
module SubmissionSafety {
  import opened Prelude
  import opened Errors
  import opened Builder
  import opened Submission

  /** The engine's state after a list of requests for one pipeline. */
  function ServeAll(p: EnginePipeline, ops: seq<Op>): EnginePipeline
    decreases |ops|
  {
    if ops == [] then p else Serve(ServeAll(p, ops[..|ops| - 1]), ops[|ops| - 1])
  }

  lemma {:induction false} ServeAllPrefix(d: Draft, id: string, start: bool, n: nat)
    requires n <= Length(d, start)
    ensures |Body(d, id, start)| == Length(d, start)
    ensures ServeAll(Created(d.name, d.description), Body(d, id, start)[..n]) == Partial(d, start, n)
    decreases n
  {
    if n > 0 {
      ServeAllPrefix(d, id, start, n - 1);
      ServeNext(d, id, start, n - 1);
      assert Body(d, id, start)[..n][..n - 1] == Body(d, id, start)[..n - 1];
    }
  }

  lemma ReachableInv(newId: IdGenerator, sys: System, moves: seq<Move>)
    requires Generates(newId) && Initial(sys)
    ensures Inv(sys.pipelines, Run(newId, sys, moves))
  {
    InitialInv(sys);
    RunKeepsInv(newId, sys.pipelines, sys, moves);
  }

  // Each guarantee is a property of the end of a run; the lemma beside it derives the property
  // from the invariant, and the main lemma states it of every run.

  /** A pipeline that a run put on the engine holds exactly the first requests of that run's plan:
      as many as were acknowledged, or one more when the run failed on a response that was lost. */
  ghost predicate HoldsFirst(end: System, p: string) {
    && p in end.owner && p in end.pipelines && end.owner[p] < |end.sessions|
    && var s := end.sessions[end.owner[p]];
       && 1 <= s.applied <= Total(s)
       && (s.applied == s.acked || (s.applied == s.acked + 1 && s.phase.Failed?))
       && |Body(s.draft, p, s.start)| == Total(s) - 1
       && end.pipelines[p]
          == ServeAll(Created(s.draft.name, s.draft.description), Body(s.draft, p, s.start)[..s.applied - 1])
  }

  lemma HoldsFirstFromInv(foreign: map<string, EnginePipeline>, end: System, p: string)
    requires Inv(foreign, end) && p in end.owner
    ensures HoldsFirst(end, p)
  {
    assert PipelineOk(end, p);
    assert SessionOk(end.sessions[end.owner[p]]);
    HoldsFirstFromFacts(end, p);
  }

  lemma HoldsFirstFromFacts(end: System, p: string)
    requires p in end.owner && PipelineOk(end, p) && CountsOk(end.sessions[end.owner[p]])
    ensures HoldsFirst(end, p)
  {
    var s := end.sessions[end.owner[p]];
    ServeAllPrefix(s.draft, p, s.start, s.applied - 1);
  }

  lemma {:induction false} HoldsFirstRequests(newId: IdGenerator, sys: System, moves: seq<Move>, p: string)
    requires Generates(newId) && Initial(sys) && p in Run(newId, sys, moves).owner
    ensures HoldsFirst(Run(newId, sys, moves), p)
  {
    ReachableInv(newId, sys, moves);
    HoldsFirstFromInv(sys.pipelines, Run(newId, sys, moves), p);
  }

  /** If it is running, its run asked for that, and every connector, every processor and the
      dead-letter queue are in place. */
  ghost predicate CompleteIfRunning(end: System, p: string) {
    && p in end.owner && p in end.pipelines && end.owner[p] < |end.sessions|
    && var s, e := end.sessions[end.owner[p]], end.pipelines[p];
       e.running ==>
         && s.start && e.connectors == s.draft.connectors
         && e.processors == AllOnEngine(s.draft.processors) && e.dlq == s.draft.dlq
  }

  lemma CompleteFromInv(foreign: map<string, EnginePipeline>, end: System, p: string)
    requires Inv(foreign, end) && p in end.owner
    ensures CompleteIfRunning(end, p)
  {
    assert PipelineOk(end, p);
    var s := end.sessions[end.owner[p]];
    assert SessionOk(s);
    if end.pipelines[p].running {
      assert s.draft.connectors[..|s.draft.connectors|] == s.draft.connectors;
      assert s.draft.processors[..|s.draft.processors|] == s.draft.processors;
    }
  }

  lemma StartedOnlyWhenComplete(newId: IdGenerator, sys: System, moves: seq<Move>, p: string)
    requires Generates(newId) && Initial(sys) && p in Run(newId, sys, moves).owner
    ensures CompleteIfRunning(Run(newId, sys, moves), p)
  {
    ReachableInv(newId, sys, moves);
    CompleteFromInv(sys.pipelines, Run(newId, sys, moves), p);
  }

  /** Session `i` left a new pipeline on the engine that is what the chain of builder calls says,
      read one call at a time, and runs if and only if it was to be started. */
  ghost predicate MeansCalls(start: System, end: System, i: nat, name: string, description: string, calls: seq<BuilderCall>) {
    && i < |end.sessions|
    && var s := end.sessions[i];
       && s.id != "" && s.id in end.pipelines && s.id !in start.pipelines
       && end.pipelines[s.id] == Meaning(name, description, calls).(running := s.start)
  }

  lemma MeaningFromInv(start: System, end: System, i: nat, name: string, description: string, calls: seq<BuilderCall>)
    requires Inv(start.pipelines, end) && i < |end.sessions| && end.sessions[i].phase.Succeeded?
    requires end.sessions[i].draft == ApplyAll(Begin(name, description), calls)
    ensures MeansCalls(start, end, i, name, description, calls)
  {
    var s := end.sessions[i];
    assert SessionOk(s) && IdOwned(end, i) && PipelineOk(end, s.id);
    CompleteIsMeaning(name, description, calls, s.start);
  }

  /** Meaning is preserved end to end: every successful run, however many others run beside it. */
  lemma {:induction false} SuccessMeansMeaning(
      newId: IdGenerator, sys: System, moves: seq<Move>, i: nat,
      name: string, description: string, calls: seq<BuilderCall>)
    requires Generates(newId) && Initial(sys) && i < |Run(newId, sys, moves).sessions|
    requires Run(newId, sys, moves).sessions[i].phase.Succeeded?
    requires Run(newId, sys, moves).sessions[i].draft == ApplyAll(Begin(name, description), calls)
    ensures MeansCalls(sys, Run(newId, sys, moves), i, name, description, calls)
  {
    ReachableInv(newId, sys, moves);
    MeaningFromInv(sys, Run(newId, sys, moves), i, name, description, calls);
  }

  /** The whole plan, with creation first. */
  function Plan(s: Session): seq<Op> {
    [CreatePipeline(s.draft.name, s.draft.description)] + Body(s.draft, s.id, s.start)
  }

  lemma PlanLength(s: Session)
    ensures |Plan(s)| == Total(s)
    ensures forall n :: 0 <= n < Total(s) ==> Plan(s)[n] == OpAt(s, n)
  {
  }

  /** The plan, request by request: creation, the connectors and the processors in the order they
      were declared, the dead-letter queue if there is one, and the start if it was asked for. */
  lemma PlanInOrder(s: Session)
    ensures var d, nc, np := s.draft, |s.draft.connectors|, |s.draft.processors|;
      var nd := if d.dlq.Some? then 1 else 0;
      && |Plan(s)| == 1 + nc + np + nd + (if s.start then 1 else 0)
      && Plan(s)[0] == CreatePipeline(d.name, d.description)
      && (forall i :: 0 <= i < nc ==>
            var c := d.connectors[i]; Plan(s)[1 + i] == CreateConnector(s.id, c.ctype, c.plugin, c.name, c.settings))
      && (forall i :: 0 <= i < np ==>
            var p := d.processors[i];
            Plan(s)[1 + nc + i] == CreateProcessor(TYPE_PIPELINE, s.id, p.plugin, p.condition,
                                                   if p.workers.Some? then p.workers.value else 0, p.settings))
      && (d.dlq.Some? ==>
            var q := d.dlq.value;
            Plan(s)[1 + nc + np] == UpdateDLQ(s.id, q.plugin, q.settings, q.windowSize, q.windowNackThreshold))
      && (s.start ==> Plan(s)[1 + nc + np + nd] == StartPipeline(s.id))
  {
    PlanLength(s);
    forall i | 0 <= i < |s.draft.connectors|
      ensures var c := s.draft.connectors[i];
        Plan(s)[1 + i] == CreateConnector(s.id, c.ctype, c.plugin, c.name, c.settings)
    {
      BodyConnector(s.draft, s.id, s.start, i);
    }
    forall i | 0 <= i < |s.draft.processors|
      ensures var p := s.draft.processors[i];
        Plan(s)[1 + |s.draft.connectors| + i]
        == CreateProcessor(TYPE_PIPELINE, s.id, p.plugin, p.condition,
                           if p.workers.Some? then p.workers.value else 0, p.settings)
    {
      BodyProcessor(s.draft, s.id, s.start, i);
    }
    BodyTail(s.draft, s.id, s.start);
  }

  lemma BodyConnector(d: Draft, id: string, start: bool, i: nat)
    requires i < |d.connectors|
    ensures i < |Body(d, id, start)|
    ensures var c := d.connectors[i];
      Body(d, id, start)[i] == CreateConnector(id, c.ctype, c.plugin, c.name, c.settings)
  {
  }

  lemma BodyProcessor(d: Draft, id: string, start: bool, i: nat)
    requires i < |d.processors|
    ensures |d.connectors| + i < |Body(d, id, start)|
    ensures var p := d.processors[i];
      Body(d, id, start)[|d.connectors| + i]
      == CreateProcessor(TYPE_PIPELINE, id, p.plugin, p.condition, if p.workers.Some? then p.workers.value else 0, p.settings)
  {
  }

  lemma BodyTail(d: Draft, id: string, start: bool)
    ensures var n, nd := |d.connectors| + |d.processors|, if d.dlq.Some? then 1 else 0;
      && |Body(d, id, start)| == n + nd + (if start then 1 else 0)
      && (d.dlq.Some? ==>
            var q := d.dlq.value;
            Body(d, id, start)[n] == UpdateDLQ(id, q.plugin, q.settings, q.windowSize, q.windowNackThreshold))
      && (start ==> Body(d, id, start)[n + nd] == StartPipeline(id))
  {
  }

  lemma PrefixByIndex(trace: seq<Op>, plan: seq<Op>)
    requires |trace| <= |plan| && forall n :: 0 <= n < |trace| ==> trace[n] == plan[n]
    ensures trace <= plan && (trace == plan <==> |trace| == |plan|)
  {
  }

  /** The requests sent are a prefix of the plan, at most two longer than creation, connectors and
      processors together: those acknowledged, and when the run failed the one it failed on.
      Everything is acknowledged exactly on success; a run that sent everything and did not succeed
      failed on its very last request. */
  ghost predicate FollowsPlan(s: Session) {
    && s.trace <= Plan(s)
    && |s.trace| == s.acked + (if s.phase.Failed? then 1 else 0)
    && |s.trace| <= 1 + |s.draft.connectors| + |s.draft.processors| + 2
    && (s.phase.Succeeded? <==> s.acked == |Plan(s)|)
    && (s.trace == Plan(s) <==> s.phase.Succeeded? || (s.phase.Failed? && s.acked == |Plan(s)| - 1))
  }

  lemma PlanFromCounts(s: Session)
    requires SessionOk(s)
    ensures FollowsPlan(s)
  {
    PlanLength(s);
    PrefixByIndex(s.trace, Plan(s));
  }

  lemma {:induction false} TraceIsPlanPrefix(newId: IdGenerator, sys: System, moves: seq<Move>, i: nat)
    requires Generates(newId) && Initial(sys) && i < |Run(newId, sys, moves).sessions|
    ensures FollowsPlan(Run(newId, sys, moves).sessions[i])
  {
    ReachableInv(newId, sys, moves);
    PlanFromCounts(Run(newId, sys, moves).sessions[i]);
  }

  /** The error of a failed run carries the pipeline's id exactly when creation had been
      acknowledged, and the id is that of a pipeline on the engine which this run created. An
      exception that error translation lets through carries nothing. */
  ghost predicate NamesPipeline(end: System, i: nat) {
    && i < |end.sessions|
    && var s := end.sessions[i];
       s.phase.Failed? && s.phase.error.Some? ==>
         var id := s.phase.error.value.pipelineId;
         && (id != "" <==> s.acked >= 1)
         && (id != "" ==> id in end.pipelines && id in end.owner && end.owner[id] == i)
  }

  lemma NamesFromInv(foreign: map<string, EnginePipeline>, end: System, i: nat)
    requires Inv(foreign, end) && i < |end.sessions|
    ensures NamesPipeline(end, i)
  {
    assert SessionOk(end.sessions[i]) && IdOwned(end, i) && PipelineOk(end, end.sessions[i].id);
  }

  lemma ErrorNamesThePipeline(newId: IdGenerator, sys: System, moves: seq<Move>, i: nat)
    requires Generates(newId) && Initial(sys) && i < |Run(newId, sys, moves).sessions|
    ensures NamesPipeline(Run(newId, sys, moves), i)
  {
    ReachableInv(newId, sys, moves);
    NamesFromInv(sys.pipelines, Run(newId, sys, moves), i);
  }

  /** What was on the engine before is still there, unchanged; everything else there was put there
      by a run; and no run puts two pipelines there. */
  ghost predicate OthersUntouched(start: System, end: System) {
    && (forall p :: p in start.pipelines ==> p in end.pipelines && end.pipelines[p] == start.pipelines[p])
    && (forall p :: p in end.pipelines ==> p in start.pipelines || p in end.owner)
    && (forall p, q :: p in end.owner && q in end.owner && end.owner[p] == end.owner[q] ==> p == q)
  }

  lemma UntouchedFromInv(start: System, end: System)
    requires Inv(start.pipelines, end)
    ensures OthersUntouched(start, end)
  {
    forall p | p in end.pipelines ensures p in start.pipelines || p in end.owner {
      assert p in end.pipelines.Keys;
    }
  }

  lemma NobodyElseTouched(newId: IdGenerator, sys: System, moves: seq<Move>)
    requires Generates(newId) && Initial(sys)
    ensures OthersUntouched(sys, Run(newId, sys, moves))
  {
    ReachableInv(newId, sys, moves);
    UntouchedFromInv(sys, Run(newId, sys, moves));
  }

  /** Every request of run `i` after creation names the id that run was given, and run `j` was not
      given the same one. */
  ghost predicate OwnIdOnly(end: System, i: nat, j: nat) {
    && i < |end.sessions| && j < |end.sessions|
    && var s, t := end.sessions[i], end.sessions[j];
       && (forall n :: 0 < n < |s.trace| ==> Names(s.trace[n]) == Some(s.id))
       && (s.acked >= 1 && t.acked >= 1 ==> s.id != t.id)
  }

  lemma OwnIdFromInv(foreign: map<string, EnginePipeline>, end: System, i: nat, j: nat)
    requires Inv(foreign, end) && i < |end.sessions| && j < |end.sessions| && i != j
    ensures OwnIdOnly(end, i, j)
  {
    var s := end.sessions[i];
    assert SessionOk(s) && IdOwned(end, i) && IdOwned(end, j);
    BodyNames(s.draft, s.id, s.start);
    forall n | 0 < n < |s.trace| ensures Names(s.trace[n]) == Some(s.id) {
      assert s.trace[n] == OpAt(s, n);
    }
  }

  /** No id crosses from one run to another, not even between runs of the same builder. */
  lemma IdsDoNotCross(newId: IdGenerator, sys: System, moves: seq<Move>, i: nat, j: nat)
    requires Generates(newId) && Initial(sys)
    requires i < |Run(newId, sys, moves).sessions| && j < |Run(newId, sys, moves).sessions| && i != j
    ensures OwnIdOnly(Run(newId, sys, moves), i, j)
  {
    ReachableInv(newId, sys, moves);
    OwnIdFromInv(sys.pipelines, Run(newId, sys, moves), i, j);
  }

  // ----- Non-interference ------------------------------------------------------------------

  function StripPhase(phase: Phase): Phase {
    if phase.Failed? && phase.error.Some? then Failed(Some(phase.error.value.(pipelineId := ""))) else phase
  }

  function Erase(op: Op): Op {
    match op
    case CreatePipeline(_, _) => op
    case CreateConnector(_, _, _, _, _) => op.(pipelineId := "")
    case CreateProcessor(_, _, _, _, _, _) => op.(parentId := "")
    case UpdateDLQ(_, _, _, _, _) => op.(id := "")
    case StartPipeline(_) => StartPipeline("")
  }

  function EraseAll(ops: seq<Op>): (erased: seq<Op>)
    ensures |erased| == |ops| && forall n :: 0 <= n < |ops| ==> erased[n] == Erase(ops[n])
  {
    seq(|ops|, n requires 0 <= n < |ops| => Erase(ops[n]))
  }

  /** A session without the id it happened to be given. */
  function Shadow(s: Session): Session {
    s.(id := "", trace := EraseAll(s.trace), phase := StripPhase(s.phase))
  }

  lemma OpAtShadow(s: Session, n: nat)
    requires n < Total(s)
    ensures Erase(OpAt(s, n)) == Erase(OpAt(Shadow(s), n))
  {
    var t := Shadow(s);
    var nc, np := |s.draft.connectors|, |s.draft.processors|;
    if 0 < n <= nc {
      assert Body(s.draft, s.id, s.start)[n - 1] == ConnectorOp(s.id, s.draft.connectors[n - 1]);
      assert Body(t.draft, t.id, t.start)[n - 1] == ConnectorOp(t.id, t.draft.connectors[n - 1]);
    } else if nc < n <= nc + np {
      var k := n - 1 - nc;
      assert Body(s.draft, s.id, s.start)[n - 1] == ProcessorOp(TYPE_PIPELINE, s.id, s.draft.processors[k]);
      assert Body(t.draft, t.id, t.start)[n - 1] == ProcessorOp(TYPE_PIPELINE, t.id, t.draft.processors[k]);
    }
  }

  lemma EraseMore(ops: seq<Op>, op: Op, op': Op)
    requires Erase(op) == Erase(op')
    ensures EraseAll(ops + [op]) == EraseAll(EraseAll(ops) + [op'])
  {
    assert forall n :: 0 <= n < |ops| ==> Erase(Erase(ops[n])) == Erase(ops[n]);
  }

  function SoloStep(s: Session, fate: Fate): Session {
    if s.phase == Running && s.acked < Total(s) then Shadow(Answered(s, fate, "")) else s
  }

  function SoloRun(s: Session, fates: seq<Fate>): Session
    decreases |fates|
  {
    if fates == [] then s else SoloStep(SoloRun(s, fates[..|fates| - 1]), fates[|fates| - 1])
  }

  /** How the server treated session `i`, in order. */
  function FatesOf(moves: seq<Move>, i: nat): seq<Fate>
    decreases |moves|
  {
    if moves == [] then []
    else
      var last := moves[|moves| - 1];
      FatesOf(moves[..|moves| - 1], i) + (if last.who == i then [last.fate] else [])
  }

  lemma ShadowStep(newId: IdGenerator, foreign: map<string, EnginePipeline>, sys: System, m: Move, i: nat)
    requires Inv(foreign, sys) && i < |sys.sessions|
    ensures var after := Step(newId, sys, m);
      && i < |after.sessions|
      && Shadow(after.sessions[i])
         == if m.who == i then SoloStep(Shadow(sys.sessions[i]), m.fate) else Shadow(sys.sessions[i])
  {
    if m.who == i {
      var s := sys.sessions[i];
      assert SessionOk(s);
      if CanMove(sys, m) {
        ShadowAnswered(s, m.fate, newId(m.seed, sys.pipelines.Keys));
      }
    }
  }

  lemma ShadowAnswered(s: Session, fate: Fate, id: string)
    requires s.acked < Total(s) && s.phase == Running
    ensures Shadow(Answered(s, fate, id)) == Shadow(Answered(Shadow(s), fate, ""))
  {
    OpAtShadow(s, s.acked);
    EraseMore(s.trace, OpAt(s, s.acked), OpAt(Shadow(s), s.acked));
    match fate {
      case Ack =>
      case Refused(exc) => assert Decode(exc).Some? || Decode(exc).None?;
      case Lost(exc) => assert Decode(exc).Some? || Decode(exc).None?;
    }
  }

  /** How far a run gets, and what it sends but for the id in it, depends on how the server treats
      that run, and on nothing that the other runs do. */
  lemma {:induction false} ProgressIsOwn(newId: IdGenerator, sys: System, moves: seq<Move>, i: nat)
    requires Generates(newId) && Initial(sys) && i < |sys.sessions|
    ensures i < |Run(newId, sys, moves).sessions|
    ensures Shadow(Run(newId, sys, moves).sessions[i]) == SoloRun(sys.sessions[i], FatesOf(moves, i))
    decreases |moves|
  {
    if moves == [] {
      assert sys.sessions[i] == Open(sys.sessions[i].draft, sys.sessions[i].start);
    } else {
      var rest, last := moves[..|moves| - 1], moves[|moves| - 1];
      ProgressIsOwn(newId, sys, rest, i);
      ReachableInv(newId, sys, rest);
      ShadowStep(newId, sys.pipelines, Run(newId, sys, rest), last, i);
      if last.who == i {
        var fates := FatesOf(moves, i);
        assert fates[..|fates| - 1] == FatesOf(rest, i);
      } else {
        assert FatesOf(moves, i) == FatesOf(rest, i);
      }
    }
  }

  /** Two runs were alike: they got equally far, ended alike, and sent the same requests, up to the
      id each was given. */
  ghost predicate Alike(s: Session, t: Session) {
    && s.acked == t.acked && s.applied == t.applied && StripPhase(s.phase) == StripPhase(t.phase)
    && EraseAll(s.trace) == EraseAll(t.trace)
  }

  /** Any two chains that agree by kind, of any two builders, submitted to any two engines that
      treat them alike, lead to the same requests. */
  lemma {:induction false} SamePartsSameRequests(
      newId: IdGenerator, sys: System, moves: seq<Move>, i: nat, first: seq<BuilderCall>,
      newId': IdGenerator, sys': System, moves': seq<Move>, i': nat, second: seq<BuilderCall>,
      name: string, description: string, start: bool)
    requires Generates(newId) && Initial(sys) && i < |sys.sessions|
    requires Generates(newId') && Initial(sys') && i' < |sys'.sessions|
    requires sys.sessions[i] == Open(ApplyAll(Begin(name, description), first), start)
    requires sys'.sessions[i'] == Open(ApplyAll(Begin(name, description), second), start)
    requires ConnectorCalls(first) == ConnectorCalls(second) && ProcessorCalls(first) == ProcessorCalls(second)
    requires LastDlqCall(first) == LastDlqCall(second) && FatesOf(moves, i) == FatesOf(moves', i')
    ensures i < |Run(newId, sys, moves).sessions| && i' < |Run(newId', sys', moves').sessions|
    ensures Alike(Run(newId, sys, moves).sessions[i], Run(newId', sys', moves').sessions[i'])
  {
    SamePartsSameDraft(Begin(name, description), first, second);
    ProgressIsOwn(newId, sys, moves, i);
    ProgressIsOwn(newId', sys', moves', i');
    ShadowsAlike(Run(newId, sys, moves).sessions[i], Run(newId', sys', moves').sessions[i']);
  }

  lemma ShadowsAlike(s: Session, t: Session)
    requires Shadow(s) == Shadow(t)
    ensures Alike(s, t)
  {
    var a, b := Shadow(s), Shadow(t);
    assert a.acked == s.acked && a.applied == s.applied && a.trace == EraseAll(s.trace);
    assert b.acked == t.acked && b.applied == t.applied && b.trace == EraseAll(t.trace);
  }

  /** How a run came out, told from what it met: it goes on while every request is acknowledged; it
      succeeded when all were; and it failed on the first that was not, with what that one's failure
      decodes to and the id it had been given, or, exactly where decoding raises, with that
      exception, which carries nothing. */
  ghost predicate ComesOutAs(s: Session, fates: seq<Fate>) {
    && s.acked <= |fates| && (forall k :: 0 <= k < s.acked ==> fates[k].Ack?)
    && match s.phase
       case Running => |fates| == s.acked < Total(s)
       case Succeeded => s.acked == Total(s)
       case Failed(error) =>
         && s.acked < |fates| && s.acked < Total(s) && Thrown(fates[s.acked]).Some?
         && var decoded := Decode(Thrown(fates[s.acked]).value);
            && (error.None? <==> decoded.None?)
            && (error.Some? ==> error.value == decoded.value.(pipelineId := s.id))
  }

  lemma StepComesOut(s: Session, fates: seq<Fate>, fate: Fate, id: string)
    requires ComesOutAs(s, fates)
    ensures ComesOutAs(if s.phase.Running? then Answered(s, fate, id) else s, fates + [fate])
  {
    assert forall k :: 0 <= k < |fates| ==> (fates + [fate])[k] == fates[k];
    assert (fates + [fate])[|fates|] == fate;
  }

  lemma {:induction false} OutcomeFromFates(newId: IdGenerator, sys: System, moves: seq<Move>, i: nat)
    requires Generates(newId) && Initial(sys) && i < |sys.sessions|
    ensures i < |Run(newId, sys, moves).sessions|
    ensures ComesOutAs(Run(newId, sys, moves).sessions[i], FatesOf(moves, i))
    decreases |moves|
  {
    if moves == [] {
      assert sys.sessions[i] == Open(sys.sessions[i].draft, sys.sessions[i].start);
    } else {
      var rest, last := moves[..|moves| - 1], moves[|moves| - 1];
      OutcomeFromFates(newId, sys, rest, i);
      var mid := Run(newId, sys, rest);
      if last.who == i {
        StepComesOut(mid.sessions[i], FatesOf(rest, i), last.fate, newId(last.seed, mid.pipelines.Keys));
      } else {
        assert FatesOf(moves, i) == FatesOf(rest, i);
      }
    }
  }

  /** The pipeline `p` is what a run that got as far as `s` leaves behind. */
  ghost predicate LeftBy(end: System, p: string, s: Session) {
    && p in end.pipelines && s.applied >= 1
    && end.pipelines[p] == Partial(s.draft, s.start, s.applied - 1)
  }

  lemma LeftByShadow(foreign: map<string, EnginePipeline>, end: System, p: string)
    requires Inv(foreign, end) && p in end.owner
    ensures end.owner[p] < |end.sessions| && LeftBy(end, p, Shadow(end.sessions[end.owner[p]]))
  {
    assert PipelineOk(end, p);
  }

  lemma LeftByFates(newId: IdGenerator, sys: System, moves: seq<Move>, i: nat, p: string)
    requires Generates(newId) && Initial(sys) && i < |sys.sessions|
    requires p in Run(newId, sys, moves).owner && Run(newId, sys, moves).owner[p] == i
    ensures LeftBy(Run(newId, sys, moves), p, SoloRun(sys.sessions[i], FatesOf(moves, i)))
  {
    ProgressIsOwn(newId, sys, moves, i);
    ReachableInv(newId, sys, moves);
    LeftByShadow(sys.pipelines, Run(newId, sys, moves), p);
  }

  ghost predicate SamePipeline(end: System, p: string, end': System, p': string) {
    p in end.pipelines && p' in end'.pipelines && end.pipelines[p] == end'.pipelines[p']
  }

  lemma LeftBySame(end: System, p: string, end': System, p': string, s: Session)
    requires LeftBy(end, p, s) && LeftBy(end', p', s)
    ensures SamePipeline(end, p, end', p')
  {
  }

  /** Non-interference: two engines, two crowds of other clients, two interleavings; if the server
      treats the same submission alike in both, the pipelines it leaves are equal in everything
      but their id. */
  lemma {:induction false} SubmissionsDoNotInterfere(
      newId: IdGenerator, sys: System, moves: seq<Move>, i: nat, p: string,
      newId': IdGenerator, sys': System, moves': seq<Move>, i': nat, p': string)
    requires Generates(newId) && Initial(sys) && i < |sys.sessions|
    requires Generates(newId') && Initial(sys') && i' < |sys'.sessions|
    requires sys.sessions[i] == sys'.sessions[i'] && FatesOf(moves, i) == FatesOf(moves', i')
    requires p in Run(newId, sys, moves).owner && Run(newId, sys, moves).owner[p] == i
    requires p' in Run(newId', sys', moves').owner && Run(newId', sys', moves').owner[p'] == i'
    ensures SamePipeline(Run(newId, sys, moves), p, Run(newId', sys', moves'), p')
  {
    LeftByFates(newId, sys, moves, i, p);
    LeftByFates(newId', sys', moves', i', p');
    LeftBySame(Run(newId, sys, moves), p, Run(newId', sys', moves'), p', SoloRun(sys.sessions[i], FatesOf(moves, i)));
  }
}
