/** `Client.run` as the code does it: ids written into mutable request objects inside loops, each
    request sent to a shared engine on which other clients work in between. Every call is shown to
    be a step of the submission system, so its guarantees hold of this method. */
module Client {
  import opened Prelude
  import opened Errors
  import opened Builder
  import opened Submission
  import opened SubmissionSafety

  ghost predicate Reachable(newId: IdGenerator, sys: System) {
    exists first, moves :: Initial(first) && Run(newId, first, moves) == sys
  }

  ghost predicate Leads(newId: IdGenerator, sys: System, sys': System) {
    exists moves :: Run(newId, sys, moves) == sys'
  }

  lemma {:induction false} RunConcat(newId: IdGenerator, sys: System, first: seq<Move>, second: seq<Move>)
    ensures Run(newId, sys, first + second) == Run(newId, Run(newId, sys, first), second)
    decreases |second|
  {
    if second == [] {
      assert first + second == first;
    } else {
      var all := first + second;
      assert all[..|all| - 1] == first + second[..|second| - 1];
      RunConcat(newId, sys, first, second[..|second| - 1]);
    }
  }

  lemma LeadsNowhere(newId: IdGenerator, sys: System)
    ensures Leads(newId, sys, sys)
  {
    assert Run(newId, sys, []) == sys;
  }

  lemma LeadsOn(newId: IdGenerator, sys: System, sys': System, m: Move)
    requires Leads(newId, sys, sys')
    ensures Leads(newId, sys, Step(newId, sys', m))
  {
    var moves :| Run(newId, sys, moves) == sys';
    assert (moves + [m])[..|moves|] == moves;
    assert Run(newId, sys, moves + [m]) == Step(newId, sys', m);
  }

  lemma LeadsReachable(newId: IdGenerator, sys: System, sys': System)
    requires Reachable(newId, sys) && Leads(newId, sys, sys')
    ensures Reachable(newId, sys')
  {
    var first, before :| Initial(first) && Run(newId, first, before) == sys;
    var moves :| Run(newId, sys, moves) == sys';
    RunConcat(newId, first, before, moves);
  }

  /** What a session at rest can rely on: its counts, and its pipeline being there. */
  lemma LeadsFacts(newId: IdGenerator, sys: System, sys': System, i: nat)
    requires Generates(newId) && Reachable(newId, sys) && Leads(newId, sys, sys') && i < |sys'.sessions|
    ensures var s := sys'.sessions[i];
      && CountsOk(s)
      && (s.acked >= 1 ==> s.id in sys'.pipelines && sys'.pipelines[s.id] == Partial(s.draft, s.start, s.applied - 1))
  {
    LeadsReachable(newId, sys, sys');
    var first, moves :| Initial(first) && Run(newId, first, moves) == sys';
    ReachableInv(newId, first, moves);
    assert SessionOk(sys'.sessions[i]) && IdOwned(sys', i) && PipelineOk(sys', sys'.sessions[i].id);
  }

  lemma IdFacts(newId: IdGenerator, sys: System, sys': System, i: nat)
    requires Generates(newId) && Reachable(newId, sys) && Leads(newId, sys, sys') && i < |sys'.sessions|
    ensures sys'.sessions[i].id != "" <==> sys'.sessions[i].acked >= 1
  {
    LeadsFacts(newId, sys, sys', i);
  }

  /** A complete session has a complete pipeline. */
  lemma CompleteFacts(newId: IdGenerator, sys: System, sys': System, i: nat)
    requires Generates(newId) && Reachable(newId, sys) && Leads(newId, sys, sys') && i < |sys'.sessions|
    requires sys'.sessions[i].acked == 1 + Length(sys'.sessions[i].draft, sys'.sessions[i].start)
    ensures var s := sys'.sessions[i];
      && s.id in sys'.pipelines && sys'.pipelines[s.id] == Partial(s.draft, s.start, Length(s.draft, s.start))
      && MeansDraft(sys'.pipelines[s.id], s.draft, s.start)
  {
    LeadsFacts(newId, sys, sys', i);
    WholeDraftMeans(sys'.sessions[i].draft, sys'.sessions[i].start);
  }

  lemma StepKeepsOthers(newId: IdGenerator, sys: System, m: Move, i: nat)
    requires i < |sys.sessions| && m.who != i
    ensures |Step(newId, sys, m).sessions| == |sys.sessions| && Step(newId, sys, m).sessions[i] == sys.sessions[i]
  {
  }

  /** What a stub call comes back with: the response (only creation's carries anything), a
      translated error, or an exception that translation lets through. */
  datatype Reply = Response(id: string) | Failure(error: ConduitError) | Escape

  datatype RunResult =
    | Handle(pipelineId: string)
    | ConduitFailure(error: ConduitError)
    | OtherFailure
    | Unencodable

  class Engine {
    const newId: IdGenerator
    var pipelines: map<string, EnginePipeline>
    var owner: map<string, nat>
    var sessions: seq<Session>
    ghost var origin: System

    ghost function S(): System
      reads this
    {
      System(pipelines, owner, sessions)
    }

    ghost predicate Valid()
      reads this
    {
      Generates(newId) && Reachable(newId, origin) && Leads(newId, origin, S())
    }

    /** Session `me` was given `id`, has `n` requests acknowledged, and has not failed. */
    ghost predicate Stage(me: nat, d: Draft, start: bool, id: string, n: nat)
      reads this
    {
      && Valid() && me < |sessions|
      && var s := sessions[me];
         && s.draft == d && s.start == start && s.id == id && s.acked == n
         && s.phase == (if n == Total(s) then Succeeded else Running)
    }

    /** Session `me` was given `id` and failed, raising this. */
    ghost predicate Stopped(me: nat, id: string, raised: Option<Report>)
      reads this
    {
      Valid() && me < |sessions| && sessions[me].phase == Failed(raised) && sessions[me].id == id
    }

    constructor (newId: IdGenerator, pipelines: map<string, EnginePipeline>, drafts: seq<(Draft, bool)>)
      requires Generates(newId)
      ensures Valid() && this.newId == newId && this.pipelines == pipelines && |sessions| == |drafts|
      ensures forall i :: 0 <= i < |drafts| ==> sessions[i] == Open(drafts[i].0, drafts[i].1)
    {
      this.newId, this.pipelines, owner := newId, pipelines, map[];
      sessions := seq(|drafts|, i requires 0 <= i < |drafts| => Open(drafts[i].0, drafts[i].1));
      origin := System(pipelines, map[], seq(|drafts|, i requires 0 <= i < |drafts| => Open(drafts[i].0, drafts[i].1)));
      new;
      LeadsNowhere(newId, S());
      assert Run(newId, S(), []) == S();
    }

    /** The other clients make the given requests. */
    method Others(me: nat, moves: seq<Move>)
      requires Valid() && me < |sessions| && forall m :: m in moves ==> m.who != me
      modifies this
      ensures Valid() && origin == old(origin)
      ensures |sessions| == |old(sessions)| && sessions[me] == old(sessions[me])
    {
      for k := 0 to |moves|
        invariant Valid() && origin == old(origin)
        invariant |sessions| == |old(sessions)| && sessions[me] == old(sessions[me])
      {
        var before := System(pipelines, owner, sessions);
        LeadsOn(newId, origin, before, moves[k]);
        StepKeepsOthers(newId, before, moves[k], me);
        var next := Step(newId, before, moves[k]);
        pipelines, owner, sessions := next.pipelines, next.owner, next.sessions;
      }
    }

    /** The server handles a request, going by what the request says and not by who sent it;
        `None` is a normal response, in which `id` means something after creation only. */
    method Handle(me: nat, op: Op, fate: Fate, seed: nat) returns (exc: Option<RpcError>, id: string)
      requires Valid() && me < |sessions| && sessions[me].phase.Running?
      requires sessions[me].acked < Total(sessions[me]) && op == OpAt(sessions[me], sessions[me].acked)
      modifies this`pipelines, this`owner, this`sessions
      ensures Valid() && sessions == old(sessions)[me := Answered(old(sessions[me]), fate, id)]
      ensures op.CreatePipeline? ==> id != "" && id !in old(pipelines)
      ensures exc == Thrown(fate)
      ensures pipelines ==
        if fate.Refused? then old(pipelines)
        else if op.CreatePipeline? then old(pipelines)[id := Created(op.name, op.description)]
        else Deliver(old(pipelines), op)
    {
      ghost var m := Move(me, fate, seed);
      LeadsOn(newId, origin, S(), m);
      assert CanMove(S(), m);
      var s := sessions[me];
      id := newId(seed, pipelines.Keys);
      if !fate.Refused? {
        var named := Names(op);
        if op.CreatePipeline? {
          pipelines := pipelines[id := Created(op.name, op.description)];
          owner := owner[id := me];
        } else if named.Some? && named.value in pipelines {
          pipelines := pipelines[named.value := Serve(pipelines[named.value], op)];
        }
      }
      sessions := sessions[me := Answered(s, fate, id)];
      exc := Thrown(fate);
    }
  }

  /** `Client._call`: send, and translate a failure. */
  method Call(engine: Engine, me: nat, op: Op, fate: Fate, seed: nat, ghost d: Draft, ghost start: bool, ghost id: string, ghost n: nat)
    returns (r: Reply)
    requires engine.Stage(me, d, start, id, n) && n < Total(engine.sessions[me]) && op == OpAt(engine.sessions[me], n)
    modifies engine`pipelines, engine`owner, engine`sessions
    ensures r.Response? <==> fate.Ack?
    ensures r.Response? ==> (n == 0 ==> r.id != "") && engine.Stage(me, d, start, if n == 0 then r.id else id, n + 1)
    ensures !r.Response? ==> me < |engine.sessions| && engine.sessions[me].acked == n && Reports(engine, me, id, fate, r)
    ensures r.Failure? ==> fresh(r.error)
  {
    var exc, given := engine.Handle(me, op, fate, seed);
    if exc.None? {
      return Response(given);
    }
    DecodeHasNoId(exc.value);
    var error := ConduitError.FromRpcError(exc.value);
    if error == null {
      return Escape;
    }
    return Failure(error);
  }

  /** A failed request raises what its failure decodes to, without an id, and the session is over. */
  ghost predicate Reports(engine: Engine, me: nat, id: string, fate: Fate, r: Reply)
    reads engine, if r.Failure? then {r.error} else {}
  {
    && Thrown(fate).Some?
    && match r
       case Response(_) => false
       case Failure(error) =>
         && Decode(Thrown(fate).value) == Some(error.Value()) && error.pipelineId == ""
         && engine.Stopped(me, id, Some(error.Value().(pipelineId := id)))
       case Escape => Decode(Thrown(fate).value).None? && engine.Stopped(me, id, None)
  }

  lemma {:induction false} ScanHasNoId(details: seq<Detail>, message: string, fallback: Report)
    requires fallback.pipelineId == ""
    ensures Scan(details, message, fallback).Some? ==> Scan(details, message, fallback).value.pipelineId == ""
  {
    if details != [] {
      ScanHasNoId(details[1..], message, fallback);
    }
  }

  lemma DecodeHasNoId(exc: RpcError)
    ensures Decode(exc).Some? ==> Decode(exc).value.pipelineId == ""
  {
    ScanHasNoId(DetailsOf(exc), MessageOf(exc), Fallback(exc));
  }

  // Where each kind of request sits in the plan.

  lemma ConnectorAt(s: Session, i: nat)
    requires i < |s.draft.connectors|
    ensures 1 + i < Total(s) && OpAt(s, 1 + i) == ConnectorOp(s.id, s.draft.connectors[i])
  {
  }

  lemma ProcessorAt(s: Session, i: nat)
    requires i < |s.draft.processors|
    ensures var n := 1 + |s.draft.connectors| + i;
      n < Total(s) && OpAt(s, n) == ProcessorOp(TYPE_PIPELINE, s.id, s.draft.processors[i])
  {
  }

  lemma DlqAt(s: Session)
    requires s.draft.dlq.Some?
    ensures var n := 1 + |s.draft.connectors| + |s.draft.processors|;
      n < Total(s) && OpAt(s, n) == DlqOp(s.id, s.draft.dlq.value)
  {
  }

  lemma StartAt(s: Session)
    requires s.start
    ensures OpAt(s, Total(s) - 1) == StartPipeline(s.id)
  {
  }

  /** How the world treats one `run`: the fate of each of its requests, what the id generator
      draws on, and what the other clients do before each request. */
  datatype Weather = Weather(fates: nat -> Fate, seed: nat, others: nat -> seq<Move>)

  predicate AllAcked(w: Weather, first: nat, end: nat) {
    forall k :: first <= k < end ==> w.fates(k).Ack?
  }

  /** How the requests numbered `first` up to `end` come out: all acknowledged, or stopped at the
      first that is not, with what that one raises. */
  ghost predicate Fares(engine: Engine, me: nat, id: string, w: Weather, first: nat, end: nat, r: Reply)
    reads engine, if r.Failure? then {r.error} else {}
  {
    if r.Response? then AllAcked(w, first, end)
    else
      && me < |engine.sessions|
      && var n := engine.sessions[me].acked;
         first <= n < end && AllAcked(w, first, n) && Reports(engine, me, id, w.fates(n), r)
  }

  method SendConnector(engine: Engine, me: nat, request: CreateConnectorRequest, id: string, sent: nat, w: Weather,
                       ghost d: Draft, ghost start: bool, ghost i: nat)
    returns (r: Reply)
    requires engine.Stage(me, d, start, id, sent) && id != "" && i < |d.connectors| && sent == 1 + i
    requires forall k, m :: m in w.others(k) ==> m.who != me
    requires request.Op() == ConnectorOp("", d.connectors[i])
    modifies engine, request
    ensures engine.origin == old(engine.origin)
    ensures Fares(engine, me, id, w, sent, sent + 1, r) && (r.Failure? ==> fresh(r.error))
    ensures r.Response? ==> engine.Stage(me, d, start, id, sent + 1)
  {
    ConnectorAt(engine.sessions[me], i);
    request.pipelineId := id;
    engine.Others(me, w.others(sent));
    r := Call(engine, me, request.Op(), w.fates(sent), w.seed, d, start, id, sent);
  }

  method SendConnectors(engine: Engine, me: nat, requests: seq<CreateConnectorRequest>, id: string, w: Weather,
                        ghost d: Draft, ghost start: bool)
    returns (r: Reply)
    requires engine.Stage(me, d, start, id, 1) && id != ""
    requires forall k, m :: m in w.others(k) ==> m.who != me
    requires |requests| == |d.connectors|
    requires forall i :: 0 <= i < |requests| ==> requests[i].Op() == ConnectorOp("", d.connectors[i])
    requires forall i, j :: 0 <= i < j < |requests| ==> requests[i] != requests[j]
    modifies engine, requests
    ensures engine.origin == old(engine.origin)
    ensures Fares(engine, me, id, w, 1, 1 + |d.connectors|, r) && (r.Failure? ==> fresh(r.error))
    ensures r.Response? ==> engine.Stage(me, d, start, id, 1 + |d.connectors|)
  {
    for i := 0 to |requests|
      invariant engine.Stage(me, d, start, id, 1 + i) && engine.origin == old(engine.origin)
      invariant AllAcked(w, 1, 1 + i)
      invariant forall k :: i <= k < |requests| ==> requests[k].Op() == ConnectorOp("", d.connectors[k])
    {
      r := SendConnector(engine, me, requests[i], id, 1 + i, w, d, start, i);
      if !r.Response? {
        return;
      }
    }
    r := Response(id);
  }

  method SendProcessor(engine: Engine, me: nat, request: CreateProcessorRequest, id: string, sent: nat, w: Weather,
                       ghost d: Draft, ghost start: bool, ghost i: nat)
    returns (r: Reply)
    requires engine.Stage(me, d, start, id, sent) && id != "" && i < |d.processors| && sent == 1 + |d.connectors| + i
    requires forall k, m :: m in w.others(k) ==> m.who != me
    requires request.Op() == ProcessorOp(PARENT_UNSPECIFIED, "", d.processors[i])
    modifies engine, request
    ensures engine.origin == old(engine.origin)
    ensures Fares(engine, me, id, w, sent, sent + 1, r) && (r.Failure? ==> fresh(r.error))
    ensures r.Response? ==> engine.Stage(me, d, start, id, sent + 1)
  {
    ProcessorAt(engine.sessions[me], i);
    request.parentType := TYPE_PIPELINE;
    request.parentId := id;
    engine.Others(me, w.others(sent));
    r := Call(engine, me, request.Op(), w.fates(sent), w.seed, d, start, id, sent);
  }

  method SendProcessors(engine: Engine, me: nat, requests: seq<CreateProcessorRequest>, id: string, sent: nat, w: Weather,
                        ghost d: Draft, ghost start: bool)
    returns (r: Reply)
    requires engine.Stage(me, d, start, id, sent) && id != "" && sent == 1 + |d.connectors|
    requires forall k, m :: m in w.others(k) ==> m.who != me
    requires |requests| == |d.processors|
    requires forall i :: 0 <= i < |requests| ==> requests[i].Op() == ProcessorOp(PARENT_UNSPECIFIED, "", d.processors[i])
    requires forall i, j :: 0 <= i < j < |requests| ==> requests[i] != requests[j]
    modifies engine, requests
    ensures engine.origin == old(engine.origin)
    ensures Fares(engine, me, id, w, sent, sent + |d.processors|, r) && (r.Failure? ==> fresh(r.error))
    ensures r.Response? ==> engine.Stage(me, d, start, id, sent + |d.processors|)
  {
    for i := 0 to |requests|
      invariant engine.Stage(me, d, start, id, sent + i) && engine.origin == old(engine.origin)
      invariant AllAcked(w, sent, sent + i)
      invariant forall k :: i <= k < |requests| ==>
        requests[k].Op() == ProcessorOp(PARENT_UNSPECIFIED, "", d.processors[k])
    {
      r := SendProcessor(engine, me, requests[i], id, sent + i, w, d, start, i);
      if !r.Response? {
        return;
      }
    }
    r := Response(id);
  }

  method SendDlq(engine: Engine, me: nat, dlq: UpdateDLQRequest, id: string, sent: nat, w: Weather, ghost d: Draft, ghost start: bool)
    returns (r: Reply)
    requires engine.Stage(me, d, start, id, sent) && id != "" && sent == 1 + |d.connectors| + |d.processors|
    requires forall k, m :: m in w.others(k) ==> m.who != me
    requires d.dlq.Some? && dlq.Op() == DlqOp("", d.dlq.value)
    modifies engine, dlq
    ensures engine.origin == old(engine.origin)
    ensures Fares(engine, me, id, w, sent, sent + 1, r) && (r.Failure? ==> fresh(r.error))
    ensures r.Response? ==> engine.Stage(me, d, start, id, sent + 1)
  {
    DlqAt(engine.sessions[me]);
    dlq.id := id;
    engine.Others(me, w.others(sent));
    r := Call(engine, me, dlq.Op(), w.fates(sent), w.seed, d, start, id, sent);
  }

  method SendStart(engine: Engine, me: nat, id: string, sent: nat, w: Weather, ghost d: Draft)
    returns (r: Reply)
    requires engine.Stage(me, d, true, id, sent) && id != "" && sent == Length(d, true)
    requires forall k, m :: m in w.others(k) ==> m.who != me
    modifies engine
    ensures engine.origin == old(engine.origin)
    ensures Fares(engine, me, id, w, sent, sent + 1, r) && (r.Failure? ==> fresh(r.error))
    ensures r.Response? ==> engine.Stage(me, d, true, id, sent + 1)
  {
    StartAt(engine.sessions[me]);
    engine.Others(me, w.others(sent));
    r := Call(engine, me, StartPipeline(id), w.fates(sent), w.seed, d, true, id, sent);
  }

  /** The dead-letter queue, if there is one, and the start, if it was asked for. */
  method Finish(engine: Engine, me: nat, dlq: UpdateDLQRequest?, start: bool, id: string, sent: nat, w: Weather, ghost d: Draft)
    returns (r: Reply)
    requires engine.Stage(me, d, start, id, sent) && id != "" && sent == 1 + |d.connectors| + |d.processors|
    requires forall k, m :: m in w.others(k) ==> m.who != me
    requires (dlq != null <==> d.dlq.Some?) && (dlq != null ==> dlq.Op() == DlqOp("", d.dlq.value))
    modifies engine, dlq
    ensures engine.origin == old(engine.origin)
    ensures Fares(engine, me, id, w, sent, 1 + Length(d, start), r) && (r.Failure? ==> fresh(r.error))
    ensures r.Response? ==> engine.Stage(me, d, start, id, 1 + Length(d, start))
  {
    var next := sent;
    if dlq != null {
      r := SendDlq(engine, me, dlq, id, next, w, d, start);
      if !r.Response? {
        return;
      }
      next := next + 1;
    }
    if start {
      r := SendStart(engine, me, id, next, w, d);
      if !r.Response? {
        return;
      }
    }
    r := Response(id);
  }

  /** The body of the `try`: every request after creation. */
  method Populate(engine: Engine, me: nat, plan: BuildPlan, start: bool, id: string, w: Weather, ghost d: Draft)
    returns (r: Reply)
    requires engine.Stage(me, d, start, id, 1) && id != "" && Renders(plan, d)
    requires forall k, m :: m in w.others(k) ==> m.who != me
    modifies engine, plan.createConnectors, plan.createProcessors, plan.dlq
    ensures engine.origin == old(engine.origin)
    ensures Fares(engine, me, id, w, 1, 1 + Length(d, start), r) && (r.Failure? ==> fresh(r.error))
    ensures r.Response? ==> engine.Stage(me, d, start, id, 1 + Length(d, start))
  {
    r := SendConnectors(engine, me, plan.createConnectors, id, w, d, start);
    if !r.Response? {
      return;
    }
    var sent := 1 + |plan.createConnectors|;
    r := SendProcessors(engine, me, plan.createProcessors, id, sent, w, d, start);
    if !r.Response? {
      return;
    }
    r := Finish(engine, me, plan.dlq, start, id, sent + |plan.createProcessors|, w, d);
  }

  /** A run that fails got to the first of its requests that was not acknowledged, and raises what
      that one's failure decodes to with the id the run was given, if any; or, where translation
      itself raises, that exception as it is. */
  ghost predicate RunFails(engine: Engine, me: nat, w: Weather, total: nat, r: RunResult)
    reads engine, if r.ConduitFailure? then {r.error} else {}
  {
    && me < |engine.sessions|
    && var n, id := engine.sessions[me].acked, engine.sessions[me].id;
       && n < total && AllAcked(w, 0, n) && Thrown(w.fates(n)).Some?
       && var decoded := Decode(Thrown(w.fates(n)).value);
          match r
          case ConduitFailure(error) => decoded.Some? && error.Value() == decoded.value.(pipelineId := id)
          case _ => decoded.None?
  }

  /** Whatever chain of calls built the draft, the pipeline means that chain. */
  ghost predicate MeansDraft(e: EnginePipeline, d: Draft, start: bool) {
    forall name, description, calls :: d == ApplyAll(Begin(name, description), calls) ==>
      e == Meaning(name, description, calls).(running := start)
  }

  lemma WholeDraftMeans(d: Draft, start: bool)
    ensures MeansDraft(Partial(d, start, Length(d, start)), d, start)
  {
    forall name, description, calls | d == ApplyAll(Begin(name, description), calls)
      ensures Partial(d, start, Length(d, start)) == Meaning(name, description, calls).(running := start)
    {
      CompleteIsMeaning(name, description, calls, start);
    }
  }

  /** `client.run(pipeline, start=start)` as session `me` of the engine. The builder is only read:
      whatever happens, it can be run again and will send the same requests. */
  method RunPipeline(engine: Engine, me: nat, pipeline: Pipeline, start: bool, w: Weather) returns (r: RunResult)
    requires engine.Valid() && me < |engine.sessions| && engine.sessions[me] == Open(pipeline.State(), start)
    requires forall k, m :: m in w.others(k) ==> m.who != me
    modifies engine
    ensures engine.Valid() && Leads(engine.newId, old(engine.S()), engine.S())
    ensures r.Unencodable? <==> !Encodable(pipeline.State())
    ensures r.Unencodable? ==> engine.S() == old(engine.S())
    ensures r.Handle? ==>
      && engine.Stage(me, pipeline.State(), start, r.pipelineId, 1 + Length(pipeline.State(), start))
      && r.pipelineId in engine.pipelines
      && engine.pipelines[r.pipelineId] == Partial(pipeline.State(), start, Length(pipeline.State(), start))
      && MeansDraft(engine.pipelines[r.pipelineId], pipeline.State(), start)
    ensures r.Handle? <==> Encodable(pipeline.State()) && AllAcked(w, 0, 1 + Length(pipeline.State(), start))
    ensures r.ConduitFailure? || r.OtherFailure? ==> RunFails(engine, me, w, 1 + Length(pipeline.State(), start), r)
    ensures r.ConduitFailure? ==>
      && fresh(r.error) && engine.Stopped(me, r.error.pipelineId, Some(r.error.Value()))
      && (r.error.pipelineId != "" <==> engine.sessions[me].acked >= 1)
    ensures r.OtherFailure? ==> me < |engine.sessions| && engine.sessions[me].phase == Failed(None)
  {
    ghost var d := pipeline.State();
    LeadsReachable(engine.newId, engine.origin, engine.S());
    LeadsNowhere(engine.newId, engine.S());
    engine.origin := engine.S();
    var plan := pipeline.BuildRequests();
    if plan.None? {
      return Unencodable;
    }
    r := SubmitPlan(engine, me, plan.value, start, w, d);
  }

  /** The `try` with its `except`, which gives the id to the errors it lets through. */
  method PopulateOrAnnotate(engine: Engine, me: nat, plan: BuildPlan, start: bool, id: string, w: Weather, ghost d: Draft)
    returns (r: RunResult)
    requires engine.Stage(me, d, start, id, 1) && id != "" && Renders(plan, d) && w.fates(0).Ack?
    requires forall k, m :: m in w.others(k) ==> m.who != me
    modifies engine, plan.createConnectors, plan.createProcessors, plan.dlq
    ensures engine.Valid() && engine.origin == old(engine.origin) && me < |engine.sessions|
    ensures match r
      case Handle(given) =>
        given == id && engine.Stage(me, d, start, id, 1 + Length(d, start)) && AllAcked(w, 0, 1 + Length(d, start))
      case ConduitFailure(error) =>
        && fresh(error) && engine.Stopped(me, error.pipelineId, Some(error.Value()))
        && RunFails(engine, me, w, 1 + Length(d, start), r)
      case OtherFailure => engine.sessions[me].phase == Failed(None) && RunFails(engine, me, w, 1 + Length(d, start), r)
      case Unencodable => false
  {
    var reply := Populate(engine, me, plan, start, id, w, d);
    if reply.Escape? {
      return OtherFailure;
    }
    if reply.Failure? {
      reply.error.pipelineId := id;
      return ConduitFailure(reply.error);
    }
    return Handle(id);
  }

  /** `run` once the requests are built. */
  method SubmitPlan(engine: Engine, me: nat, plan: BuildPlan, start: bool, w: Weather, ghost d: Draft) returns (r: RunResult)
    requires engine.Stage(me, d, start, "", 0) && Renders(plan, d)
    requires forall k, m :: m in w.others(k) ==> m.who != me
    modifies engine, plan.createConnectors, plan.createProcessors, plan.dlq
    ensures engine.Valid() && engine.origin == old(engine.origin) && me < |engine.sessions|
    ensures match r
      case Handle(id) =>
        && engine.Stage(me, d, start, id, 1 + Length(d, start)) && AllAcked(w, 0, 1 + Length(d, start))
        && id in engine.pipelines && engine.pipelines[id] == Partial(d, start, Length(d, start))
        && MeansDraft(engine.pipelines[id], d, start)
      case ConduitFailure(error) =>
        && fresh(error) && engine.Stopped(me, error.pipelineId, Some(error.Value()))
        && (error.pipelineId != "" <==> engine.sessions[me].acked >= 1)
        && RunFails(engine, me, w, 1 + Length(d, start), r)
      case OtherFailure => engine.sessions[me].phase == Failed(None) && RunFails(engine, me, w, 1 + Length(d, start), r)
      case Unencodable => false
  {
    engine.Others(me, w.others(0));
    r := Submit(engine, me, plan, start, w, d);
    IdFacts(engine.newId, engine.origin, engine.S(), me);
    if r.Handle? {
      CompleteFacts(engine.newId, engine.origin, engine.S(), me);
    }
  }

  /** Creation, then the rest, whose failures are given the id before they are raised on. */
  method Submit(engine: Engine, me: nat, plan: BuildPlan, start: bool, w: Weather, ghost d: Draft) returns (r: RunResult)
    requires engine.Stage(me, d, start, "", 0) && Renders(plan, d)
    requires forall k, m :: m in w.others(k) ==> m.who != me
    modifies engine, plan.createConnectors, plan.createProcessors, plan.dlq
    ensures engine.Valid() && engine.origin == old(engine.origin) && me < |engine.sessions|
    ensures match r
      case Handle(id) => engine.Stage(me, d, start, id, 1 + Length(d, start)) && AllAcked(w, 0, 1 + Length(d, start))
      case ConduitFailure(error) =>
        && fresh(error) && engine.Stopped(me, error.pipelineId, Some(error.Value()))
        && RunFails(engine, me, w, 1 + Length(d, start), r)
      case OtherFailure => engine.sessions[me].phase == Failed(None) && RunFails(engine, me, w, 1 + Length(d, start), r)
      case Unencodable => false
  {
    var reply := Call(engine, me, plan.createPipeline, w.fates(0), w.seed, d, start, "", 0);
    if reply.Escape? {
      return OtherFailure;
    }
    if reply.Failure? {
      return ConduitFailure(reply.error);
    }
    r := PopulateOrAnnotate(engine, me, plan, start, reply.id, w, d);
  }
}
