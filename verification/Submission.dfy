/** Submitting pipelines to an engine: several `run` calls at once, each an ordered list of
    requests without rollback, against a server whose every call may be acknowledged, refused, or
    carried out with the response lost. */
module Submission {
  import opened Prelude
  import opened Errors
  import opened Builder

  // ----- What the engine holds -------------------------------------------------------------

  datatype EngineProcessor = EngineProcessor(plugin: string, condition: string, workers: int, settings: Wire)

  /** One pipeline in the engine; `dlq` is absent while the engine's own default is in force. */
  datatype EnginePipeline = EnginePipeline(
    name: string, description: string,
    connectors: seq<ConnectorSpec>, processors: seq<EngineProcessor>, dlq: Option<DlqSpec>, running: bool)

  function Created(name: string, description: string): EnginePipeline {
    EnginePipeline(name, description, [], [], None, false)
  }

  /** What a request does to the pipeline it is for. */
  function Serve(p: EnginePipeline, op: Op): EnginePipeline {
    match op
    case CreatePipeline(_, _) => p
    case CreateConnector(_, ctype, plugin, name, settings) =>
      p.(connectors := p.connectors + [ConnectorSpec(ctype, plugin, name, settings)])
    case CreateProcessor(_, _, plugin, condition, workers, settings) =>
      p.(processors := p.processors + [EngineProcessor(plugin, condition, workers, settings)])
    case UpdateDLQ(_, plugin, settings, windowSize, windowNackThreshold) =>
      p.(dlq := Some(DlqSpec(plugin, settings, windowSize, windowNackThreshold)))
    case StartPipeline(_) => p.(running := true)
  }

  /** The pipeline a request names: by its own id field, which for a processor counts only with a
      pipeline for a parent. Creation names none. */
  function Names(op: Op): Option<string> {
    match op
    case CreatePipeline(_, _) => None
    case CreateConnector(id, _, _, _, _) => Some(id)
    case CreateProcessor(parentType, id, _, _, _, _) => if parentType == TYPE_PIPELINE then Some(id) else None
    case UpdateDLQ(id, _, _, _, _) => Some(id)
    case StartPipeline(id) => Some(id)
  }

  /** The engine's side of a request: it takes effect on the pipeline that it names, and on nothing
      when it names none that the engine has. */
  function Deliver(pipelines: map<string, EnginePipeline>, op: Op): map<string, EnginePipeline> {
    if Names(op).Some? && Names(op).value in pipelines then
      pipelines[Names(op).value := Serve(pipelines[Names(op).value], op)]
    else
      pipelines
  }

  /** Every request of a body names the pipeline that the body is for. */
  lemma BodyNames(d: Draft, id: string, start: bool)
    ensures forall n :: 0 <= n < |Body(d, id, start)| ==> Names(Body(d, id, start)[n]) == Some(id)
  {
  }

  // ----- What a chain of builder calls means -----------------------------------------------

  /** The effect a builder call is meant to have on the engine, said directly. */
  function Interpret(p: EnginePipeline, c: BuilderCall): EnginePipeline {
    match c
    case SourceCall(plugin, name, settings, kwargs) =>
      p.(connectors := p.connectors
           + [ConnectorSpec(SOURCE, plugin, if name != "" then name else plugin, Settings(settings, kwargs))])
    case DestinationCall(plugin, name, settings, kwargs) =>
      p.(connectors := p.connectors
           + [ConnectorSpec(DESTINATION, plugin, if name != "" then name else plugin, Settings(settings, kwargs))])
    case ProcessCall(plugin, condition, workers, settings, kwargs) =>
      p.(processors := p.processors
           + [EngineProcessor(plugin, condition, if workers.Some? then workers.value else 0, Settings(settings, kwargs))])
    case DlqCall(plugin, windowSize, windowNackThreshold, settings, kwargs) =>
      p.(dlq := Some(DlqSpec(
        plugin, Settings(settings, kwargs),
        if windowSize.Some? then windowSize.value else 1,
        if windowNackThreshold.Some? then windowNackThreshold.value else 0)))
  }

  function Meaning(name: string, description: string, calls: seq<BuilderCall>): EnginePipeline
    decreases |calls|
  {
    if calls == [] then Created(name, description)
    else Interpret(Meaning(name, description, calls[..|calls| - 1]), calls[|calls| - 1])
  }

  function OnEngine(p: ProcessorSpec): EngineProcessor {
    EngineProcessor(p.plugin, p.condition, GetOr(p.workers, 0), p.settings)
  }

  function AllOnEngine(ps: seq<ProcessorSpec>): (es: seq<EngineProcessor>)
    ensures |es| == |ps| && forall i :: 0 <= i < |ps| ==> es[i] == OnEngine(ps[i])
  {
    seq(|ps|, i requires 0 <= i < |ps| => OnEngine(ps[i]))
  }

  function Clamp(n: int, max: nat): nat {
    if n < 0 then 0 else if n > max then max else n
  }

  function Length(d: Draft, start: bool): nat {
    |d.connectors| + |d.processors| + (if d.dlq.Some? then 1 else 0) + (if start then 1 else 0)
  }

  /** The pipeline after the first `n` requests of a draft's body: so many connectors, then so many
      processors, then the dead-letter queue, and running only when nothing is missing. */
  function Partial(d: Draft, start: bool, n: nat): EnginePipeline {
    var nc, np := |d.connectors|, |d.processors|;
    EnginePipeline(
      d.name, d.description,
      d.connectors[..Clamp(n, nc)],
      AllOnEngine(d.processors[..Clamp(n - nc, np)]),
      if n > nc + np then d.dlq else None,
      start && n >= Length(d, start))
  }

  /** Whatever id the server assigned, each request takes the partial pipeline one step on. */
  lemma ServeNext(d: Draft, id: string, start: bool, n: nat)
    requires n < Length(d, start)
    ensures |Body(d, id, start)| == Length(d, start)
    ensures Serve(Partial(d, start, n), Body(d, id, start)[n]) == Partial(d, start, n + 1)
  {
    var nc, np := |d.connectors|, |d.processors|;
    var before, after := Partial(d, start, n), Partial(d, start, n + 1);
    if n < nc {
      assert Body(d, id, start)[n] == ConnectorOp(id, d.connectors[n]);
      assert d.connectors[..n] + [d.connectors[n]] == d.connectors[..n + 1];
    } else if n < nc + np {
      var k := n - nc;
      assert Body(d, id, start)[n] == ProcessorOp(TYPE_PIPELINE, id, d.processors[k]);
      assert d.processors[..k] + [d.processors[k]] == d.processors[..k + 1];
      assert AllOnEngine(d.processors[..k]) + [OnEngine(d.processors[k])] == AllOnEngine(d.processors[..k + 1]);
    }
  }

  /** A complete body is the meaning of the chain, with `start` deciding whether it runs. */
  lemma {:induction false} CompleteIsMeaning(name: string, description: string, calls: seq<BuilderCall>, start: bool)
    ensures var d := ApplyAll(Begin(name, description), calls);
      Partial(d, start, Length(d, start)) == Meaning(name, description, calls).(running := start)
    decreases |calls|
  {
    MeaningOfDraft(name, description, calls);
  }

  lemma {:induction false} MeaningOfDraft(name: string, description: string, calls: seq<BuilderCall>)
    ensures var d, m := ApplyAll(Begin(name, description), calls), Meaning(name, description, calls);
      && d.name == m.name == name && d.description == m.description == description
      && m.connectors == d.connectors && m.processors == AllOnEngine(d.processors) && m.dlq == d.dlq && !m.running
    decreases |calls|
  {
    if calls != [] {
      var rest := calls[..|calls| - 1];
      MeaningOfDraft(name, description, rest);
      var d, d' := ApplyAll(Begin(name, description), rest), ApplyAll(Begin(name, description), calls);
      if calls[|calls| - 1].ProcessCall? {
        assert AllOnEngine(d'.processors) == AllOnEngine(d.processors) + [OnEngine(d'.processors[|d.processors|])];
      }
    }
  }

  // ----- Runs in progress ------------------------------------------------------------------

  /** How one call to the server ends. */
  datatype Fate = Ack | Refused(exc: RpcError) | Lost(exc: RpcError)

  /** What the call raises. */
  function Thrown(fate: Fate): Option<RpcError> {
    match fate
    case Ack => None
    case Refused(exc) => Some(exc)
    case Lost(exc) => Some(exc)
  }

  /** `Failed` carries what `run` raises; `None` is an exception that error translation lets
      through, which `run` does not annotate. */
  datatype Phase = Running | Succeeded | Failed(error: Option<Report>)

  /** One `run`: its draft, the id it was told, how many of its requests were acknowledged, how
      many took effect, and every request it sent. */
  datatype Session = Session(
    draft: Draft, start: bool, phase: Phase, id: string, acked: nat, applied: nat, trace: seq<Op>)

  function Open(draft: Draft, start: bool): Session {
    Session(draft, start, Running, "", 0, 0, [])
  }

  function Total(s: Session): nat {
    1 + Length(s.draft, s.start)
  }

  /** Its `n`-th request. */
  function OpAt(s: Session, n: nat): Op
    requires n < Total(s)
  {
    if n == 0 then CreatePipeline(s.draft.name, s.draft.description) else Body(s.draft, s.id, s.start)[n - 1]
  }

  /** The server hands out `newId(seed, taken)`, where `seed` stands for whatever its generator
      draws on. */
  type IdGenerator = (nat, set<string>) -> string

  ghost predicate Generates(newId: IdGenerator) {
    forall seed: nat, taken: set<string> :: newId(seed, taken) !in taken && newId(seed, taken) != ""
  }

  datatype System = System(pipelines: map<string, EnginePipeline>, owner: map<string, nat>, sessions: seq<Session>)

  datatype Move = Move(who: nat, fate: Fate, seed: nat)

  function Raised(exc: RpcError, id: string): Phase {
    match Decode(exc)
    case None => Failed(None)
    case Some(r) => Failed(Some(r.(pipelineId := id)))
  }

  /** The session after sending its next request; `id` is the one the server assigned if that
      request is the first. */
  function Answered(s: Session, fate: Fate, id: string): Session
    requires s.acked < Total(s)
  {
    var sent := s.(trace := s.trace + [OpAt(s, s.acked)]);
    match fate
    case Ack =>
      sent.(id := if s.acked == 0 then id else s.id, acked := s.acked + 1, applied := s.acked + 1,
            phase := if s.acked + 1 == Total(s) then Succeeded else Running)
    case Refused(exc) => sent.(phase := Raised(exc, s.id))
    case Lost(exc) => sent.(phase := Raised(exc, s.id), applied := s.acked + 1)
  }

  predicate CanMove(sys: System, m: Move) {
    && m.who < |sys.sessions|
    && sys.sessions[m.who].phase == Running && sys.sessions[m.who].acked < Total(sys.sessions[m.who])
  }

  /** One request of one session. Creation puts a new pipeline on the engine; any other request
      goes where its own id says. A move of a session that is over does nothing. */
  function Step(newId: IdGenerator, sys: System, m: Move): System {
    if !CanMove(sys, m) then sys
    else
      var s := sys.sessions[m.who];
      var op := OpAt(s, s.acked);
      var id := newId(m.seed, sys.pipelines.Keys);
      var sessions := sys.sessions[m.who := Answered(s, m.fate, id)];
      if m.fate.Refused? then System(sys.pipelines, sys.owner, sessions)
      else if op.CreatePipeline? then
        System(sys.pipelines[id := Created(op.name, op.description)], sys.owner[id := m.who], sessions)
      else
        System(Deliver(sys.pipelines, op), sys.owner, sessions)
  }

  function Run(newId: IdGenerator, sys: System, moves: seq<Move>): System
    decreases |moves|
  {
    if moves == [] then sys
    else Step(newId, Run(newId, sys, moves[..|moves| - 1]), moves[|moves| - 1])
  }

  /** An engine with whatever pipelines it already has, and runs that have not begun. */
  predicate Initial(sys: System) {
    && sys.owner == map[]
    && forall i :: 0 <= i < |sys.sessions| ==> sys.sessions[i] == Open(sys.sessions[i].draft, sys.sessions[i].start)
  }

  // ----- The invariant ---------------------------------------------------------------------

  /** How many requests were sent, acknowledged and carried out in each phase; the id is known
      exactly once creation was acknowledged. */
  ghost predicate CountsOk(s: Session) {
    && s.acked <= s.applied <= Total(s)
    && (s.phase.Running? ==> s.acked < Total(s) && s.applied == s.acked)
    && (s.phase.Succeeded? ==> s.acked == Total(s))
    && (s.phase.Failed? ==> s.acked < Total(s) && s.applied <= s.acked + 1)
    && (s.id != "" <==> s.acked >= 1)
    && |s.trace| == s.acked + (if s.phase.Failed? then 1 else 0)
    && (s.phase.Failed? && s.phase.error.Some? ==> s.phase.error.value.pipelineId == s.id)
  }

  /** The requests sent are the first ones of the plan, in order. */
  ghost predicate TraceOk(s: Session) {
    && |s.trace| <= Total(s)
    && forall n :: 0 <= n < |s.trace| ==> s.trace[n] == OpAt(s, n)
  }

  ghost predicate SessionOk(s: Session) {
    CountsOk(s) && TraceOk(s)
  }

  /** A pipeline created by a run holds exactly the requests of that run that took effect. */
  ghost predicate PipelineOk(sys: System, p: string) {
    p in sys.owner ==>
      && p in sys.pipelines && sys.owner[p] < |sys.sessions|
      && var s := sys.sessions[sys.owner[p]];
         && s.applied >= 1
         && sys.pipelines[p] == Partial(s.draft, s.start, s.applied - 1)
         && (s.acked >= 1 ==> s.id == p)
  }

  ghost predicate IdOwned(sys: System, i: nat)
    requires i < |sys.sessions|
  {
    sys.sessions[i].acked >= 1 ==> sys.sessions[i].id in sys.owner && sys.owner[sys.sessions[i].id] == i
  }

  ghost predicate Inv(foreign: map<string, EnginePipeline>, sys: System) {
    && (forall i :: 0 <= i < |sys.sessions| ==> SessionOk(sys.sessions[i]) && IdOwned(sys, i))
    && (forall p :: PipelineOk(sys, p))
    && (forall p, q :: p in sys.owner && q in sys.owner && sys.owner[p] == sys.owner[q] ==> p == q)
    && sys.pipelines.Keys == foreign.Keys + sys.owner.Keys && foreign.Keys !! sys.owner.Keys
    && (forall p :: p in foreign ==> p in sys.pipelines && sys.pipelines[p] == foreign[p])
  }

  lemma InitialInv(sys: System)
    requires Initial(sys)
    ensures Inv(sys.pipelines, sys)
  {
  }

  lemma AnsweredCounts(s: Session, fate: Fate, id: string)
    requires CountsOk(s) && s.phase.Running? && (s.acked == 0 ==> id != "")
    ensures CountsOk(Answered(s, fate, id))
  {
  }

  lemma OpAtSame(s: Session, s': Session, n: nat)
    requires s'.draft == s.draft && s'.start == s.start && (n == 0 || s'.id == s.id) && n < Total(s)
    ensures n < Total(s') && OpAt(s', n) == OpAt(s, n)
  {
  }

  lemma TraceGrows(s: Session, s': Session)
    requires CountsOk(s) && TraceOk(s) && s.phase.Running?
    requires s'.draft == s.draft && s'.start == s.start && (s.acked == 0 || s'.id == s.id)
    requires s'.trace == s.trace + [OpAt(s, s.acked)]
    ensures TraceOk(s')
  {
    forall n | 0 <= n < |s'.trace| ensures n < Total(s') && s'.trace[n] == OpAt(s', n) {
      assert s'.trace[n] == OpAt(s, n);
      OpAtSame(s, s', n);
    }
  }

  lemma AnsweredTrace(s: Session, fate: Fate, id: string)
    requires CountsOk(s) && TraceOk(s) && s.phase.Running?
    ensures TraceOk(Answered(s, fate, id))
  {
    TraceGrows(s, Answered(s, fate, id));
  }

  /** A step in outline: the mover's counters go up, and either nothing else changes, or its
      pipeline appears under a fresh id, or its pipeline takes on one more request. */
  ghost predicate Outline(sys: System, sys': System, who: nat)
    requires who < |sys.sessions|
  {
    && |sys'.sessions| == |sys.sessions|
    && (forall i :: 0 <= i < |sys.sessions| && i != who ==> sys'.sessions[i] == sys.sessions[i])
    && var s, s' := sys.sessions[who], sys'.sessions[who];
       && s'.draft == s.draft && s'.start == s.start
       && (if s'.applied == s.applied then
             s'.acked == s.acked && s'.id == s.id && sys'.pipelines == sys.pipelines && sys'.owner == sys.owner
           else if s.applied == 0 then
             Appears(sys, sys', who)
           else
             && s'.applied == s.applied + 1 && s'.id == s.id
             && sys'.owner == sys.owner
             && sys'.pipelines == sys.pipelines[s.id := Partial(s.draft, s.start, s.applied)])
  }

  ghost predicate Appears(sys: System, sys': System, who: nat)
    requires who < |sys.sessions| && who < |sys'.sessions|
  {
    var s, s' := sys.sessions[who], sys'.sessions[who];
    exists p :: AppearsAs(sys, sys', who, s, s', p)
  }

  ghost predicate AppearsAs(sys: System, sys': System, who: nat, s: Session, s': Session, p: string) {
    && p !in sys.pipelines
    && s'.applied == 1 && (s'.acked >= 1 ==> s'.id == p)
    && sys'.owner == sys.owner[p := who]
    && sys'.pipelines == sys.pipelines[p := Partial(s.draft, s.start, 0)]
  }

  lemma CreateOutline(newId: IdGenerator, foreign: map<string, EnginePipeline>, sys: System, m: Move)
    requires Generates(newId) && Inv(foreign, sys) && CanMove(sys, m) && sys.sessions[m.who].acked == 0
    ensures Outline(sys, Step(newId, sys, m), m.who)
  {
    var s, sys' := sys.sessions[m.who], Step(newId, sys, m);
    assert SessionOk(s);
    if !m.fate.Refused? {
      var p := newId(m.seed, sys.pipelines.Keys);
      assert Partial(s.draft, s.start, 0) == Created(s.draft.name, s.draft.description);
      assert AppearsAs(sys, sys', m.who, s, sys'.sessions[m.who], p);
    }
  }

  lemma ServeOutline(newId: IdGenerator, foreign: map<string, EnginePipeline>, sys: System, m: Move)
    requires Inv(foreign, sys) && CanMove(sys, m) && sys.sessions[m.who].acked > 0
    ensures Outline(sys, Step(newId, sys, m), m.who)
  {
    var s, sys' := sys.sessions[m.who], Step(newId, sys, m);
    assert SessionOk(s) && IdOwned(sys, m.who) && PipelineOk(sys, s.id);
    NextOfPlan(s);
  }

  /** The next request of a run names its pipeline and takes it one step on. */
  lemma NextOfPlan(s: Session)
    requires 0 < s.acked < Total(s)
    ensures var op := OpAt(s, s.acked);
      && Names(op) == Some(s.id) && !op.CreatePipeline?
      && Serve(Partial(s.draft, s.start, s.acked - 1), op) == Partial(s.draft, s.start, s.acked)
  {
    BodyNames(s.draft, s.id, s.start);
    ServeNext(s.draft, s.id, s.start, s.acked - 1);
  }

  lemma AppearingKeepsPipeline(sys: System, sys': System, who: nat, p: string)
    requires who < |sys.sessions| && sys.sessions[who].applied == 0 && PipelineOk(sys, p)
    requires Outline(sys, sys', who) && sys'.sessions[who].applied != 0
    ensures PipelineOk(sys', p)
  {
    var s, s' := sys.sessions[who], sys'.sessions[who];
    var q :| AppearsAs(sys, sys', who, s, s', q);
    if p in sys'.owner && p != q {
      assert p in sys.owner && sys.owner[p] != who;
    }
  }

  lemma ServingKeepsPipeline(sys: System, sys': System, who: nat, p: string)
    requires who < |sys.sessions| && PipelineOk(sys, p)
    requires var s := sys.sessions[who]; 0 < s.applied == s.acked && s.id in sys.owner && sys.owner[s.id] == who
    requires Outline(sys, sys', who) && sys'.sessions[who].applied != sys.sessions[who].applied
    ensures PipelineOk(sys', p)
  {
    if p in sys'.owner {
      assert sys.owner[p] == who <==> p == sys.sessions[who].id;
    }
  }

  lemma OutlineKeepsPipeline(sys: System, sys': System, who: nat, p: string)
    requires who < |sys.sessions| && sys.sessions[who].phase.Running?
    requires CountsOk(sys.sessions[who]) && IdOwned(sys, who) && PipelineOk(sys, p)
    requires Outline(sys, sys', who)
    ensures PipelineOk(sys', p)
  {
    if sys'.sessions[who].applied != sys.sessions[who].applied {
      if sys.sessions[who].applied == 0 {
        AppearingKeepsPipeline(sys, sys', who, p);
      } else {
        ServingKeepsPipeline(sys, sys', who, p);
      }
    }
  }

  lemma OutlineKeepsIds(foreign: map<string, EnginePipeline>, sys: System, sys': System, who: nat)
    requires Inv(foreign, sys) && who < |sys.sessions| && sys.sessions[who].phase.Running?
    requires Outline(sys, sys', who) && SessionOk(sys'.sessions[who])
    ensures forall i :: 0 <= i < |sys'.sessions| ==> SessionOk(sys'.sessions[i]) && IdOwned(sys', i)
    ensures forall p, q :: p in sys'.owner && q in sys'.owner && sys'.owner[p] == sys'.owner[q] ==> p == q
    ensures sys'.pipelines.Keys == foreign.Keys + sys'.owner.Keys && foreign.Keys !! sys'.owner.Keys
    ensures forall p :: p in foreign ==> p in sys'.pipelines && sys'.pipelines[p] == foreign[p]
  {
    var s, s' := sys.sessions[who], sys'.sessions[who];
    assert SessionOk(s) && IdOwned(sys, who);
    forall p | p in sys.owner && s.applied == 0 ensures sys.owner[p] != who {
      assert PipelineOk(sys, p);
    }
    forall i | 0 <= i < |sys'.sessions| ensures SessionOk(sys'.sessions[i]) && IdOwned(sys', i) {
      if i != who { assert SessionOk(sys.sessions[i]) && IdOwned(sys, i); }
    }
  }

  lemma StepKeepsInv(newId: IdGenerator, foreign: map<string, EnginePipeline>, sys: System, m: Move)
    requires Generates(newId) && Inv(foreign, sys)
    ensures Inv(foreign, Step(newId, sys, m))
  {
    if CanMove(sys, m) {
      var s, sys' := sys.sessions[m.who], Step(newId, sys, m);
      assert SessionOk(s) && IdOwned(sys, m.who);
      var id := newId(m.seed, sys.pipelines.Keys);
      AnsweredCounts(s, m.fate, id);
      AnsweredTrace(s, m.fate, id);
      if s.acked == 0 {
        CreateOutline(newId, foreign, sys, m);
      } else {
        ServeOutline(newId, foreign, sys, m);
      }
      OutlineKeepsIds(foreign, sys, sys', m.who);
      forall p ensures PipelineOk(sys', p) {
        assert PipelineOk(sys, p);
        OutlineKeepsPipeline(sys, sys', m.who, p);
      }
    }
  }

  lemma {:induction false} RunKeepsInv(newId: IdGenerator, foreign: map<string, EnginePipeline>, sys: System, moves: seq<Move>)
    requires Generates(newId) && Inv(foreign, sys)
    ensures Inv(foreign, Run(newId, sys, moves))
    decreases |moves|
  {
    if moves != [] {
      RunKeepsInv(newId, foreign, sys, moves[..|moves| - 1]);
      StepKeepsInv(newId, foreign, Run(newId, sys, moves[..|moves| - 1]), moves[|moves| - 1]);
    }
  }
}
