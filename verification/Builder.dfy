/** The fluent pipeline builder: what a chain of calls accumulates, and the requests it renders. */
module Builder {
  import opened Prelude

  // ----- Settings --------------------------------------------------------------------------

  /** A configuration value: a boolean, or anything else with its `str()`. */
  datatype Value = Flag(on: bool) | Other(text: string)

  type Mapping = map<string, Value>
  type Wire = map<string, string>

  function Coerce(v: Value): string {
    match v
    case Flag(on) => if on then "true" else "false"
    case Other(text) => text
  }

  function Merged(settings: Option<Mapping>, kwargs: Mapping): Mapping {
    (if settings.Some? then settings.value else map[]) + kwargs
  }

  function Settings(settings: Option<Mapping>, kwargs: Mapping): (wire: Wire) {
    var merged := Merged(settings, kwargs);
    map k | k in merged :: Coerce(merged[k])
  }

  method MergeSettings(settings: Option<Mapping>, kwargs: Mapping) returns (wire: Wire)
    ensures wire == Settings(settings, kwargs)
    ensures forall k :: k in wire <==> k in kwargs || (settings.Some? && k in settings.value)
    ensures forall k :: k in wire ==> Sent(wire[k], if k in kwargs then kwargs[k] else settings.value[k])
  {
    var merged := if settings.Some? then settings.value else map[];
    merged := merged + kwargs;
    wire := map[];
    var left := merged.Keys;
    while left != {}
      invariant left <= merged.Keys && wire.Keys == merged.Keys - left
      invariant forall k :: k in wire ==> wire[k] == Coerce(merged[k])
      decreases left
    {
      var k :| k in left;
      wire := wire[k := Coerce(merged[k])];
      left := left - {k};
    }
  }

  /** What the engine's configuration parser expects to see for a value. */
  ghost predicate Sent(text: string, v: Value) {
    && (v == Flag(true) ==> text == "true")
    && (v == Flag(false) ==> text == "false")
    && (v.Other? ==> text == v.text)
  }

  /** Every key given anywhere arrives, a keyword argument wins over the mapping, booleans are
      spelled in lower case, and everything else arrives as its text. */
  lemma SettingsMeaning(settings: Option<Mapping>, kwargs: Mapping, key: string)
    ensures var wire := Settings(settings, kwargs);
      && (key in wire <==> key in kwargs || (settings.Some? && key in settings.value))
      && (key in wire ==>
            var v := if key in kwargs then kwargs[key] else settings.value[key];
            match v
            case Flag(on) => wire[key] == (if on then "true" else "false")
            case Other(text) => wire[key] == text)
  {
  }

  // ----- What the builder holds ------------------------------------------------------------

  datatype ConnectorType = SOURCE | DESTINATION

  datatype ConnectorSpec = ConnectorSpec(ctype: ConnectorType, plugin: string, name: string, settings: Wire)

  datatype ProcessorSpec = ProcessorSpec(plugin: string, condition: string, workers: Option<int>, settings: Wire)

  datatype DlqSpec = DlqSpec(plugin: string, settings: Wire, windowSize: int, windowNackThreshold: int)

  datatype Draft = Draft(
    name: string, description: string,
    connectors: seq<ConnectorSpec>, processors: seq<ProcessorSpec>, dlq: Option<DlqSpec>)

  /** One call in a builder chain. */
  datatype BuilderCall =
    | SourceCall(plugin: string, name: string, settings: Option<Mapping>, kwargs: Mapping)
    | DestinationCall(plugin: string, name: string, settings: Option<Mapping>, kwargs: Mapping)
    | ProcessCall(plugin: string, condition: string, workers: Option<int>, settings: Option<Mapping>, kwargs: Mapping)
    | DlqCall(plugin: string, windowSize: Option<int>, windowNackThreshold: Option<int>,
              settings: Option<Mapping>, kwargs: Mapping)

  function OrElse(name: string, plugin: string): string {
    if name != "" then name else plugin
  }

  function GetOr(v: Option<int>, default: int): int {
    if v.Some? then v.value else default
  }

  function Apply(d: Draft, c: BuilderCall): Draft {
    match c
    case SourceCall(plugin, name, settings, kwargs) =>
      d.(connectors := d.connectors + [ConnectorSpec(SOURCE, plugin, OrElse(name, plugin), Settings(settings, kwargs))])
    case DestinationCall(plugin, name, settings, kwargs) =>
      d.(connectors := d.connectors + [ConnectorSpec(DESTINATION, plugin, OrElse(name, plugin), Settings(settings, kwargs))])
    case ProcessCall(plugin, condition, workers, settings, kwargs) =>
      d.(processors := d.processors + [ProcessorSpec(plugin, condition, workers, Settings(settings, kwargs))])
    case DlqCall(plugin, windowSize, windowNackThreshold, settings, kwargs) =>
      d.(dlq := Some(DlqSpec(plugin, Settings(settings, kwargs), GetOr(windowSize, 1), GetOr(windowNackThreshold, 0))))
  }

  function Begin(name: string, description: string): Draft {
    Draft(name, description, [], [], None)
  }

  function ApplyAll(d: Draft, calls: seq<BuilderCall>): Draft
    decreases |calls|
  {
    if calls == [] then d else Apply(ApplyAll(d, calls[..|calls| - 1]), calls[|calls| - 1])
  }

  // ----- Normal form -----------------------------------------------------------------------

  function ConnectorCalls(calls: seq<BuilderCall>): seq<BuilderCall> {
    if calls == [] then []
    else ConnectorCalls(calls[..|calls| - 1])
         + (if calls[|calls| - 1].SourceCall? || calls[|calls| - 1].DestinationCall? then [calls[|calls| - 1]] else [])
  }

  function ProcessorCalls(calls: seq<BuilderCall>): seq<BuilderCall> {
    if calls == [] then []
    else ProcessorCalls(calls[..|calls| - 1])
         + (if calls[|calls| - 1].ProcessCall? then [calls[|calls| - 1]] else [])
  }

  function LastDlqCall(calls: seq<BuilderCall>): Option<BuilderCall> {
    if calls == [] then None
    else if calls[|calls| - 1].DlqCall? then Some(calls[|calls| - 1])
    else LastDlqCall(calls[..|calls| - 1])
  }

  /** The sorted form of a chain: connectors, then processors, then the last `.dlq`. */
  function NormalForm(calls: seq<BuilderCall>): seq<BuilderCall> {
    ConnectorCalls(calls) + ProcessorCalls(calls)
    + (if LastDlqCall(calls).Some? then [LastDlqCall(calls).value] else [])
  }

  lemma ApplyOneMore(d: Draft, calls: seq<BuilderCall>, c: BuilderCall)
    ensures ApplyAll(d, calls + [c]) == Apply(ApplyAll(d, calls), c)
  {
    assert (calls + [c])[..|calls|] == calls;
  }

  /** The connectors of a chain are those of its connector calls alone, and so for the other kinds. */
  lemma {:induction false} ConnectorsByKind(d: Draft, calls: seq<BuilderCall>)
    ensures ApplyAll(d, calls).connectors == ApplyAll(d, ConnectorCalls(calls)).connectors
    decreases |calls|
  {
    if calls != [] {
      var rest, last := calls[..|calls| - 1], calls[|calls| - 1];
      ConnectorsByKind(d, rest);
      if last.SourceCall? || last.DestinationCall? {
        ApplyOneMore(d, ConnectorCalls(rest), last);
      } else {
        assert ConnectorCalls(calls) == ConnectorCalls(rest);
      }
    }
  }

  lemma {:induction false} ProcessorsByKind(d: Draft, calls: seq<BuilderCall>)
    ensures ApplyAll(d, calls).processors == ApplyAll(d, ProcessorCalls(calls)).processors
    decreases |calls|
  {
    if calls != [] {
      var rest, last := calls[..|calls| - 1], calls[|calls| - 1];
      ProcessorsByKind(d, rest);
      if last.ProcessCall? {
        ApplyOneMore(d, ProcessorCalls(rest), last);
      } else {
        assert ProcessorCalls(calls) == ProcessorCalls(rest);
      }
    }
  }

  lemma {:induction false} DlqByKind(d: Draft, calls: seq<BuilderCall>)
    ensures var end := ApplyAll(d, calls);
      && end.name == d.name && end.description == d.description
      && end.dlq == (if LastDlqCall(calls).Some? then Apply(d, LastDlqCall(calls).value).dlq else d.dlq)
    ensures LastDlqCall(calls).Some? ==> LastDlqCall(calls).value.DlqCall?
    decreases |calls|
  {
    if calls != [] {
      DlqByKind(d, calls[..|calls| - 1]);
    }
  }

  /** Two chains with the same connector calls, the same processor calls and the same last `.dlq`
      build the same thing, however the kinds are interleaved. */
  lemma SamePartsSameDraft(d: Draft, first: seq<BuilderCall>, second: seq<BuilderCall>)
    requires ConnectorCalls(first) == ConnectorCalls(second)
    requires ProcessorCalls(first) == ProcessorCalls(second)
    requires LastDlqCall(first) == LastDlqCall(second)
    ensures ApplyAll(d, first) == ApplyAll(d, second)
  {
    ConnectorsByKind(d, first);
    ConnectorsByKind(d, second);
    ProcessorsByKind(d, first);
    ProcessorsByKind(d, second);
    DlqByKind(d, first);
    DlqByKind(d, second);
  }

  lemma {:induction false} FilterConcat(first: seq<BuilderCall>, second: seq<BuilderCall>)
    ensures ConnectorCalls(first + second) == ConnectorCalls(first) + ConnectorCalls(second)
    ensures ProcessorCalls(first + second) == ProcessorCalls(first) + ProcessorCalls(second)
    decreases |second|
  {
    if second == [] {
      assert first + second == first;
    } else {
      var all := first + second;
      assert all[..|all| - 1] == first + second[..|second| - 1];
      FilterConcat(first, second[..|second| - 1]);
    }
  }

  lemma {:induction false} LastDlqConcat(first: seq<BuilderCall>, second: seq<BuilderCall>)
    ensures LastDlqCall(first + second)
         == if LastDlqCall(second).Some? then LastDlqCall(second) else LastDlqCall(first)
    decreases |second|
  {
    if second == [] {
      assert first + second == first;
    } else {
      var all := first + second;
      assert all[..|all| - 1] == first + second[..|second| - 1];
      LastDlqConcat(first, second[..|second| - 1]);
    }
  }

  lemma {:induction false} ConnectorsOnly(calls: seq<BuilderCall>)
    ensures var cs := ConnectorCalls(calls);
      ConnectorCalls(cs) == cs && ProcessorCalls(cs) == [] && LastDlqCall(cs) == None
    decreases |calls|
  {
    if calls != [] {
      var rest, last := calls[..|calls| - 1], calls[|calls| - 1];
      ConnectorsOnly(rest);
      FilterOneMore(ConnectorCalls(rest), last);
      if !(last.SourceCall? || last.DestinationCall?) {
        assert ConnectorCalls(calls) == ConnectorCalls(rest);
      }
    }
  }

  lemma {:induction false} ProcessorsOnly(calls: seq<BuilderCall>)
    ensures var ps := ProcessorCalls(calls);
      ConnectorCalls(ps) == [] && ProcessorCalls(ps) == ps && LastDlqCall(ps) == None
    decreases |calls|
  {
    if calls != [] {
      var rest, last := calls[..|calls| - 1], calls[|calls| - 1];
      ProcessorsOnly(rest);
      FilterOneMore(ProcessorCalls(rest), last);
      if !last.ProcessCall? {
        assert ProcessorCalls(calls) == ProcessorCalls(rest);
      }
    }
  }

  lemma FilterOneMore(calls: seq<BuilderCall>, c: BuilderCall)
    ensures ConnectorCalls(calls + [c]) == ConnectorCalls(calls) + (if c.SourceCall? || c.DestinationCall? then [c] else [])
    ensures ProcessorCalls(calls + [c]) == ProcessorCalls(calls) + (if c.ProcessCall? then [c] else [])
    ensures LastDlqCall(calls + [c]) == (if c.DlqCall? then Some(c) else LastDlqCall(calls))
  {
    assert (calls + [c])[..|calls|] == calls;
  }

  /** In particular a chain and its sorted form are interchangeable. */
  lemma NormalFormSameDraft(d: Draft, calls: seq<BuilderCall>)
    ensures ApplyAll(d, NormalForm(calls)) == ApplyAll(d, calls)
  {
    var cs, ps, last := ConnectorCalls(calls), ProcessorCalls(calls), LastDlqCall(calls);
    DlqByKind(d, calls);
    ConnectorsOnly(calls);
    ProcessorsOnly(calls);
    FilterConcat(cs, ps);
    LastDlqConcat(cs, ps);
    assert cs + [] == cs && [] + ps == ps;
    if last.Some? {
      FilterOneMore(cs + ps, last.value);
    } else {
      assert NormalForm(calls) == cs + ps;
    }
    SamePartsSameDraft(d, NormalForm(calls), calls);
  }

  // ----- Requests --------------------------------------------------------------------------

  datatype ParentType = PARENT_UNSPECIFIED | TYPE_CONNECTOR | TYPE_PIPELINE

  /** The content of one request as the server sees it. */
  datatype Op =
    | CreatePipeline(name: string, description: string)
    | CreateConnector(pipelineId: string, ctype: ConnectorType, plugin: string, cname: string, settings: Wire)
    | CreateProcessor(parentType: ParentType, parentId: string, plugin: string, condition: string,
                      workers: int, settings: Wire)
    | UpdateDLQ(id: string, plugin: string, settings: Wire, windowSize: int, windowNackThreshold: int)
    | StartPipeline(id: string)

  class CreateConnectorRequest {
    var pipelineId: string
    const ctype: ConnectorType
    const plugin: string
    const name: string
    const settings: Wire

    constructor (c: ConnectorSpec)
      ensures Op() == ConnectorOp("", c)
    {
      pipelineId, ctype, plugin, name, settings := "", c.ctype, c.plugin, c.name, c.settings;
    }

    function Op(): Op
      reads this
    {
      CreateConnector(pipelineId, ctype, plugin, name, settings)
    }
  }

  class CreateProcessorRequest {
    var parentType: ParentType
    var parentId: string
    const plugin: string
    const condition: string
    const workers: int
    const settings: Wire

    constructor (p: ProcessorSpec)
      ensures Op() == ProcessorOp(PARENT_UNSPECIFIED, "", p)
    {
      parentType, parentId := PARENT_UNSPECIFIED, "";
      plugin, condition, settings := p.plugin, p.condition, p.settings;
      workers := if p.workers.Some? then p.workers.value else 0;
    }

    function Op(): Op
      reads this
    {
      CreateProcessor(parentType, parentId, plugin, condition, workers, settings)
    }
  }

  class UpdateDLQRequest {
    var id: string
    const plugin: string
    const settings: Wire
    const windowSize: int
    const windowNackThreshold: int

    constructor (d: DlqSpec)
      ensures Op() == DlqOp("", d)
    {
      id, plugin, settings := "", d.plugin, d.settings;
      windowSize, windowNackThreshold := d.windowSize, d.windowNackThreshold;
    }

    function Op(): Op
      reads this
    {
      UpdateDLQ(id, plugin, settings, windowSize, windowNackThreshold)
    }
  }

  function ConnectorOp(id: string, c: ConnectorSpec): Op {
    CreateConnector(id, c.ctype, c.plugin, c.name, c.settings)
  }

  /** An absent worker count is the wire's default, zero. */
  function ProcessorOp(parentType: ParentType, id: string, p: ProcessorSpec): Op {
    CreateProcessor(parentType, id, p.plugin, p.condition, GetOr(p.workers, 0), p.settings)
  }

  function DlqOp(id: string, d: DlqSpec): Op {
    UpdateDLQ(id, d.plugin, d.settings, d.windowSize, d.windowNackThreshold)
  }

  function ConnectorOps(id: string, cs: seq<ConnectorSpec>): (ops: seq<Op>)
    ensures |ops| == |cs| && forall i :: 0 <= i < |cs| ==> ops[i] == ConnectorOp(id, cs[i])
  {
    seq(|cs|, i requires 0 <= i < |cs| => ConnectorOp(id, cs[i]))
  }

  function ProcessorOps(id: string, ps: seq<ProcessorSpec>): (ops: seq<Op>)
    ensures |ops| == |ps| && forall i :: 0 <= i < |ps| ==> ops[i] == ProcessorOp(TYPE_PIPELINE, id, ps[i])
  {
    seq(|ps|, i requires 0 <= i < |ps| => ProcessorOp(TYPE_PIPELINE, id, ps[i]))
  }

  /** Everything a run asks for after the pipeline exists, bound to its id. */
  function Body(d: Draft, id: string, start: bool): seq<Op> {
    ConnectorOps(id, d.connectors)
    + ProcessorOps(id, d.processors)
    + (if d.dlq.Some? then [DlqOp(id, d.dlq.value)] else [])
    + (if start then [StartPipeline(id)] else [])
  }

  /** The numbers fit their wire types: workers a signed 32-bit integer, the window fields
      unsigned 64-bit ones. */
  predicate Encodable(d: Draft) {
    && (forall i :: 0 <= i < |d.processors| ==> WorkersFit(d.processors[i]))
    && (d.dlq.Some? ==> WindowFits(d.dlq.value))
  }

  predicate WorkersFit(p: ProcessorSpec) {
    -0x8000_0000 <= GetOr(p.workers, 0) < 0x8000_0000
  }

  predicate WindowFits(d: DlqSpec) {
    && 0 <= d.windowSize < 0x1_0000_0000_0000_0000
    && 0 <= d.windowNackThreshold < 0x1_0000_0000_0000_0000
  }

  /** What a call may say about numbers if its request is to fit the wire: workers a signed 32-bit
      integer, window and threshold unsigned 64-bit ones; saying nothing always fits. */
  ghost predicate CallFits(c: BuilderCall) {
    match c
    case ProcessCall(_, _, workers, _, _) =>
      workers.Some? ==> -2_147_483_648 <= workers.value <= 2_147_483_647
    case DlqCall(_, windowSize, windowNackThreshold, _, _) =>
      && (windowSize.Some? ==> 0 <= windowSize.value <= 18_446_744_073_709_551_615)
      && (windowNackThreshold.Some? ==> 0 <= windowNackThreshold.value <= 18_446_744_073_709_551_615)
    case _ => true
  }

  /** A dead-letter call that a later one overrides. */
  ghost predicate Overridden(calls: seq<BuilderCall>, i: nat)
    requires i < |calls|
  {
    calls[i].DlqCall? && exists j :: i < j < |calls| && calls[j].DlqCall?
  }

  ghost predicate ProcessCallsFit(calls: seq<BuilderCall>) {
    forall i :: 0 <= i < |calls| && calls[i].ProcessCall? ==> CallFits(calls[i])
  }

  ghost predicate DlqCallsFit(calls: seq<BuilderCall>) {
    forall i :: 0 <= i < |calls| && calls[i].DlqCall? && !Overridden(calls, i) ==> CallFits(calls[i])
  }

  /** What a chain builds can be sent exactly when the numbers of every call fit, but for
      dead-letter calls that a later one overrides. */
  lemma {:induction false} EncodableExactlyWhen(name: string, description: string, calls: seq<BuilderCall>)
    ensures Encodable(ApplyAll(Begin(name, description), calls))
       <==> forall i :: 0 <= i < |calls| && !Overridden(calls, i) ==> CallFits(calls[i])
  {
    ProcessorsFit(name, description, calls);
    DlqFits(name, description, calls);
  }

  ghost predicate AllWorkersFit(ps: seq<ProcessorSpec>) {
    forall i :: 0 <= i < |ps| ==> WorkersFit(ps[i])
  }

  lemma AllWorkersFitMore(ps: seq<ProcessorSpec>, p: ProcessorSpec)
    ensures AllWorkersFit(ps + [p]) <==> AllWorkersFit(ps) && WorkersFit(p)
  {
    assert (ps + [p])[|ps|] == p && forall i :: 0 <= i < |ps| ==> (ps + [p])[i] == ps[i];
  }

  lemma ProcessCallsFitMore(calls: seq<BuilderCall>, c: BuilderCall)
    ensures ProcessCallsFit(calls + [c]) <==> ProcessCallsFit(calls) && (c.ProcessCall? ==> CallFits(c))
  {
    assert (calls + [c])[|calls|] == c && forall i :: 0 <= i < |calls| ==> (calls + [c])[i] == calls[i];
  }

  lemma DlqCallsFitMore(calls: seq<BuilderCall>, c: BuilderCall)
    ensures DlqCallsFit(calls + [c]) <==> if c.DlqCall? then CallFits(c) else DlqCallsFit(calls)
  {
    var more := calls + [c];
    assert more[|calls|] == c && forall i :: 0 <= i < |calls| ==> more[i] == calls[i];
    forall i | 0 <= i < |calls| && calls[i].DlqCall?
      ensures Overridden(more, i) <==> c.DlqCall? || Overridden(calls, i)
    {
      if c.DlqCall? {
        assert more[|calls|].DlqCall?;
      } else if Overridden(calls, i) {
        var j :| i < j < |calls| && calls[j].DlqCall?;
        assert more[j].DlqCall?;
      }
    }
    assert !Overridden(more, |calls|);
  }

  lemma {:induction false} ProcessorsFit(name: string, description: string, calls: seq<BuilderCall>)
    ensures AllWorkersFit(ApplyAll(Begin(name, description), calls).processors) <==> ProcessCallsFit(calls)
    decreases |calls|
  {
    if calls != [] {
      var rest, last := calls[..|calls| - 1], calls[|calls| - 1];
      ProcessorsFit(name, description, rest);
      assert calls == rest + [last];
      ProcessCallsFitMore(rest, last);
      var d := ApplyAll(Begin(name, description), rest);
      if last.ProcessCall? {
        var p := ProcessorSpec(last.plugin, last.condition, last.workers, Settings(last.settings, last.kwargs));
        AllWorkersFitMore(d.processors, p);
      }
    }
  }

  lemma {:induction false} DlqFits(name: string, description: string, calls: seq<BuilderCall>)
    ensures var dlq := ApplyAll(Begin(name, description), calls).dlq;
      (dlq.Some? ==> WindowFits(dlq.value)) <==> DlqCallsFit(calls)
    decreases |calls|
  {
    if calls != [] {
      var rest, last := calls[..|calls| - 1], calls[|calls| - 1];
      DlqFits(name, description, rest);
      assert calls == rest + [last];
      DlqCallsFitMore(rest, last);
    }
  }

  datatype BuildPlan = BuildPlan(
    createPipeline: Op,
    createConnectors: seq<CreateConnectorRequest>,
    createProcessors: seq<CreateProcessorRequest>,
    dlq: UpdateDLQRequest?)

  /** A plan rendered from a draft: the requests in declaration order, no two of them the same
      object, and no id filled in. */
  ghost predicate Renders(plan: BuildPlan, d: Draft)
    reads plan.createConnectors, plan.createProcessors, plan.dlq
  {
    && plan.createPipeline == CreatePipeline(d.name, d.description)
    && |plan.createConnectors| == |d.connectors|
    && (forall i :: 0 <= i < |d.connectors| ==> plan.createConnectors[i].Op() == ConnectorOp("", d.connectors[i]))
    && (forall i, j :: 0 <= i < j < |d.connectors| ==> plan.createConnectors[i] != plan.createConnectors[j])
    && |plan.createProcessors| == |d.processors|
    && (forall i :: 0 <= i < |d.processors| ==>
          plan.createProcessors[i].Op() == ProcessorOp(PARENT_UNSPECIFIED, "", d.processors[i]))
    && (forall i, j :: 0 <= i < j < |d.processors| ==> plan.createProcessors[i] != plan.createProcessors[j])
    && (plan.dlq != null <==> d.dlq.Some?)
    && (plan.dlq != null ==> plan.dlq.Op() == DlqOp("", d.dlq.value))
  }

  class Pipeline {
    const id: string
    var name: string
    var description: string
    var connectors: seq<ConnectorSpec>
    var processors: seq<ProcessorSpec>
    var dlq: Option<DlqSpec>

    constructor (id: string, name: Option<string>, description: string)
      ensures this.id == id
      ensures State() == Begin(if name.Some? then name.value else id, description)
    {
      this.id := id;
      this.name := if name.Some? then name.value else id;
      this.description := description;
      connectors, processors, dlq := [], [], None;
    }

    function State(): Draft
      reads this
    {
      Draft(name, description, connectors, processors, dlq)
    }

    method Source(plugin: string, name: string, settings: Option<Mapping>, kwargs: Mapping) returns (self: Pipeline)
      modifies this
      ensures self == this && State() == Apply(old(State()), SourceCall(plugin, name, settings, kwargs))
    {
      var wire := MergeSettings(settings, kwargs);
      connectors := connectors + [ConnectorSpec(SOURCE, plugin, if name != "" then name else plugin, wire)];
      return this;
    }

    method Destination(plugin: string, name: string, settings: Option<Mapping>, kwargs: Mapping) returns (self: Pipeline)
      modifies this
      ensures self == this && State() == Apply(old(State()), DestinationCall(plugin, name, settings, kwargs))
    {
      var wire := MergeSettings(settings, kwargs);
      connectors := connectors + [ConnectorSpec(DESTINATION, plugin, if name != "" then name else plugin, wire)];
      return this;
    }

    method Process(plugin: string, condition: string, workers: Option<int>, settings: Option<Mapping>, kwargs: Mapping)
      returns (self: Pipeline)
      modifies this
      ensures self == this && State() == Apply(old(State()), ProcessCall(plugin, condition, workers, settings, kwargs))
    {
      var wire := MergeSettings(settings, kwargs);
      processors := processors + [ProcessorSpec(plugin, condition, workers, wire)];
      return this;
    }

    method Dlq(plugin: string, windowSize: Option<int>, windowNackThreshold: Option<int>,
               settings: Option<Mapping>, kwargs: Mapping) returns (self: Pipeline)
      modifies this
      ensures self == this
      ensures State() == Apply(old(State()), DlqCall(plugin, windowSize, windowNackThreshold, settings, kwargs))
    {
      var wire := MergeSettings(settings, kwargs);
      dlq := Some(DlqSpec(plugin, wire,
                          if windowSize.Some? then windowSize.value else 1,
                          if windowNackThreshold.Some? then windowNackThreshold.value else 0));
      return this;
    }

    method RenderConnectors() returns (cs: seq<CreateConnectorRequest>)
      ensures |cs| == |connectors| && forall i :: 0 <= i < |cs| ==> fresh(cs[i])
      ensures forall i :: 0 <= i < |cs| ==> cs[i].Op() == ConnectorOp("", connectors[i])
      ensures forall i, j :: 0 <= i < j < |cs| ==> cs[i] != cs[j]
    {
      cs := [];
      for i := 0 to |connectors|
        invariant |cs| == i && forall k :: 0 <= k < i ==> fresh(cs[k])
        invariant forall k :: 0 <= k < i ==> cs[k].Op() == ConnectorOp("", connectors[k])
        invariant forall j, k :: 0 <= j < k < i ==> cs[j] != cs[k]
      {
        var c := new CreateConnectorRequest(connectors[i]);
        cs := cs + [c];
      }
    }

    /** Stops at the first worker count that does not fit the wire. */
    method RenderProcessors() returns (ok: bool, ps: seq<CreateProcessorRequest>)
      ensures ok <==> forall i :: 0 <= i < |processors| ==> WorkersFit(processors[i])
      ensures forall i :: 0 <= i < |ps| ==> fresh(ps[i])
      ensures ok ==>
        && |ps| == |processors|
        && (forall i :: 0 <= i < |ps| ==> ps[i].Op() == ProcessorOp(PARENT_UNSPECIFIED, "", processors[i]))
        && (forall i, j :: 0 <= i < j < |ps| ==> ps[i] != ps[j])
    {
      ps := [];
      for i := 0 to |processors|
        invariant |ps| == i && forall k :: 0 <= k < i ==> fresh(ps[k])
        invariant forall k :: 0 <= k < i ==> WorkersFit(processors[k])
        invariant forall k :: 0 <= k < i ==> ps[k].Op() == ProcessorOp(PARENT_UNSPECIFIED, "", processors[k])
        invariant forall j, k :: 0 <= j < k < i ==> ps[j] != ps[k]
      {
        if !WorkersFit(processors[i]) {
          return false, ps;
        }
        var p := new CreateProcessorRequest(processors[i]);
        ps := ps + [p];
      }
      ok := true;
    }

    /** `None` when a number does not fit its wire field and building the message raises. The
        builder is only read, and every request is a new object. */
    method BuildRequests() returns (plan: Option<BuildPlan>)
      ensures plan.Some? <==> Encodable(State())
      ensures plan.Some? ==> Renders(plan.value, State())
      ensures plan.Some? ==>
        && (forall i :: 0 <= i < |plan.value.createConnectors| ==> fresh(plan.value.createConnectors[i]))
        && (forall i :: 0 <= i < |plan.value.createProcessors| ==> fresh(plan.value.createProcessors[i]))
        && (plan.value.dlq != null ==> fresh(plan.value.dlq))
    {
      var cs := RenderConnectors();
      var ok, ps := RenderProcessors();
      if !ok {
        return None;
      }
      if dlq.None? {
        return Some(BuildPlan(CreatePipeline(name, description), cs, ps, null));
      }
      if !WindowFits(dlq.value) {
        return None;
      }
      var d := new UpdateDLQRequest(dlq.value);
      return Some(BuildPlan(CreatePipeline(name, description), cs, ps, d));
    }
  }
}
