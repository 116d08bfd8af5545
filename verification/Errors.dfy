/** `ConduitError`: decoding it from a failed call and rendering it as text. */
module Errors {
  import opened Prelude
  import opened Text

  datatype StatusCode =
    | OK | CANCELLED | UNKNOWN | INVALID_ARGUMENT | DEADLINE_EXCEEDED | NOT_FOUND | ALREADY_EXISTS
    | PERMISSION_DENIED | RESOURCE_EXHAUSTED | FAILED_PRECONDITION | ABORTED | OUT_OF_RANGE
    | UNIMPLEMENTED | INTERNAL | UNAVAILABLE | DATA_LOSS | UNAUTHENTICATED

  /** One entry of a rich status: an `ErrorInfo`, something of another type, or bytes that claim
      to be an `ErrorInfo` and do not parse, on which unpacking raises. */
  datatype Detail =
    | Info(reason: string, domain: string, metadata: map<string, string>)
    | Foreign
    | Garbled

  /** What trailing metadata yields: no rich status, one that contradicts the call (a ValueError,
      which the translation catches), bytes that do not parse (an exception of another type, which
      it does not catch), or a list of details. */
  datatype Trailer = Missing | Contradictory | Unparsable | Rich(details: seq<Detail>)

  /** A failed call as grpc reports it, or an RpcError that is not a call and carries text only. */
  datatype RpcError =
    | Call(code: StatusCode, details: Option<string>, text: string, trailer: Trailer)
    | Plain(text: string)

  /** The text-bearing fields of a `ConduitError`; an empty string stands for an absent field. */
  datatype Report = Report(
    message: string, code: string, configPath: string, suggestion: string, docsUrl: string, pipelineId: string)

  // ----- Decoding --------------------------------------------------------------------------

  function CodeFromStatus(status: StatusCode): string {
    match status
    case UNAVAILABLE => "transport.unavailable"
    case DEADLINE_EXCEEDED => "transport.deadline_exceeded"
    case CANCELLED => "transport.cancelled"
    case NOT_FOUND => "common.not_found"
    case INVALID_ARGUMENT => "common.invalid_argument"
    case ALREADY_EXISTS => "common.already_exists"
    case FAILED_PRECONDITION => "common.failed_precondition"
    case _ => "internal.unknown"
  }

  function StatusOf(exc: RpcError): StatusCode {
    if exc.Call? then exc.code else UNKNOWN
  }

  function MessageOf(exc: RpcError): string {
    if exc.Call? && exc.details.Some? && exc.details.value != "" then exc.details.value else exc.text
  }

  function DetailsOf(exc: RpcError): seq<Detail> {
    if exc.Call? && exc.trailer.Rich? then exc.trailer.details else []
  }

  function Get(m: map<string, string>, key: string): string {
    if key in m then m[key] else ""
  }

  function FromInfo(message: string, info: Detail): Report
    requires info.Info?
  {
    Report(message, if info.reason != "" then info.reason else "internal.unknown",
           Get(info.metadata, "configPath"), Get(info.metadata, "suggestion"), Get(info.metadata, "docsUrl"), "")
  }

  /** A detail the scan steps over. */
  predicate Skipped(d: Detail) {
    d.Foreign? || (d.Info? && d.domain != "conduit")
  }

  /** What translation makes of the details: the report of the first one of Conduit's own, the
      fallback when there is none, or `None` when unpacking one on the way raises. */
  function Scan(details: seq<Detail>, message: string, fallback: Report): Option<Report> {
    if details == [] then Some(fallback)
    else if Skipped(details[0]) then Scan(details[1..], message, fallback)
    else if details[0].Garbled? then None
    else Some(FromInfo(message, details[0]))
  }

  function Fallback(exc: RpcError): Report {
    Report(MessageOf(exc), CodeFromStatus(StatusOf(exc)), "", "", "", "")
  }

  /** The translation of a failed call, or `None` when it raises instead of returning. */
  function Decode(exc: RpcError): Option<Report> {
    if TrailerRaises(exc) then None else Scan(DetailsOf(exc), MessageOf(exc), Fallback(exc))
  }

  predicate TrailerRaises(exc: RpcError) {
    exc.Call? && exc.trailer.Unparsable?
  }

  lemma {:induction false} ScanSkips(before: seq<Detail>, after: seq<Detail>, message: string, fallback: Report)
    requires forall d :: d in before ==> Skipped(d)
    ensures Scan(before + after, message, fallback) == Scan(after, message, fallback)
  {
    if before == [] {
      assert before + after == after;
    } else {
      assert before[0] in before;
      assert (before + after)[0] == before[0] && (before + after)[1..] == before[1..] + after;
      ScanSkips(before[1..], after, message, fallback);
    }
  }

  /** Everything the server attached is recovered, whatever details of other domains or types come
      before it and whatever comes after: each field is the one under its key, or empty when there
      is no such key, and the code is the reason, or the default when that is empty. The message is
      the status message of the call, or the text of the exception when there is none. */
  lemma ConduitDetailRecovered(exc: RpcError, before: seq<Detail>, info: Detail, after: seq<Detail>)
    requires exc.Call? && exc.trailer == Rich(before + [info] + after)
    requires forall d :: d in before ==> d.Foreign? || (d.Info? && d.domain != "conduit")
    requires info.Info? && info.domain == "conduit"
    ensures Decode(exc).Some?
    ensures var r := Decode(exc).value;
      && r.message == (if exc.details.Some? && exc.details.value != "" then exc.details.value else exc.text)
      && r.code == (if info.reason != "" then info.reason else "internal.unknown")
      && r.configPath == (if "configPath" in info.metadata then info.metadata["configPath"] else "")
      && r.suggestion == (if "suggestion" in info.metadata then info.metadata["suggestion"] else "")
      && r.docsUrl == (if "docsUrl" in info.metadata then info.metadata["docsUrl"] else "")
      && r.pipelineId == ""
  {
    assert before + [info] + after == before + ([info] + after);
    assert |DetailsOf(exc)| > 0;
    ScanSkips(before, [info] + after, MessageOf(exc), Fallback(exc));
  }

  /** Nothing in the trailer of this failure is Conduit's own, and nothing in it fails to parse. */
  predicate Bare(exc: RpcError) {
    exc.Call? ==>
      match exc.trailer
      case Missing => true
      case Contradictory => true
      case Unparsable => false
      case Rich(details) => forall d :: d in details ==> d.Foreign? || (d.Info? && d.domain != "conduit")
  }

  /** Without a detail of Conduit's own the status category decides alone, and the report holds a
      message and a code only. */
  lemma NoConduitDetail(exc: RpcError)
    requires Bare(exc)
    ensures Decode(exc).Some?
    ensures var r := Decode(exc).value;
      && r.message == (if exc.Call? && exc.details.Some? && exc.details.value != "" then exc.details.value else exc.text)
      && r.configPath == r.suggestion == r.docsUrl == r.pipelineId == ""
      && (exc == Plain(exc.text) ==> r.code == "internal.unknown")
      && (exc.Call? ==>
           match exc.code
           case UNAVAILABLE => r.code == "transport.unavailable"
           case DEADLINE_EXCEEDED => r.code == "transport.deadline_exceeded"
           case CANCELLED => r.code == "transport.cancelled"
           case NOT_FOUND => r.code == "common.not_found"
           case INVALID_ARGUMENT => r.code == "common.invalid_argument"
           case ALREADY_EXISTS => r.code == "common.already_exists"
           case FAILED_PRECONDITION => r.code == "common.failed_precondition"
           case _ => r.code == "internal.unknown")
  {
    ScanSkips(DetailsOf(exc), [], MessageOf(exc), Fallback(exc));
    assert DetailsOf(exc) + [] == DetailsOf(exc);
  }

  lemma {:induction false} ScanCodeNotEmpty(details: seq<Detail>, message: string, fallback: Report)
    requires fallback.code != ""
    ensures Scan(details, message, fallback).Some? ==> Scan(details, message, fallback).value.code != ""
  {
    if details != [] {
      ScanCodeNotEmpty(details[1..], message, fallback);
    }
  }

  /** The code is never empty, not even for a detail with an empty reason. */
  lemma CodeNeverEmpty(exc: RpcError)
    ensures Decode(exc).Some? ==> Decode(exc).value.code != ""
  {
    ScanCodeNotEmpty(DetailsOf(exc), MessageOf(exc), Fallback(exc));
  }

  /** A detail claims to be an `ErrorInfo` and does not parse, and none before it is Conduit's own. */
  ghost predicate GarbledFirst(details: seq<Detail>) {
    exists i :: 0 <= i < |details| && details[i].Garbled?
      && forall j :: 0 <= j < i ==> details[j].Foreign? || (details[j].Info? && details[j].domain != "conduit")
  }

  lemma {:induction false} ScanRaises(details: seq<Detail>, message: string, fallback: Report)
    ensures Scan(details, message, fallback).None? <==> GarbledFirst(details)
  {
    if details != [] {
      var rest := details[1..];
      ScanRaises(rest, message, fallback);
      if Skipped(details[0]) {
        if i :| 0 <= i < |rest| && rest[i].Garbled? && forall j :: 0 <= j < i ==> Skipped(rest[j]) {
          assert details[i + 1].Garbled?;
          forall j | 0 <= j < i + 1 ensures Skipped(details[j]) {
            if j > 0 { assert details[j] == rest[j - 1]; }
          }
        }
        if i :| 0 <= i < |details| && details[i].Garbled? && forall j :: 0 <= j < i ==> Skipped(details[j]) {
          assert rest[i - 1].Garbled?;
          forall j | 0 <= j < i - 1 ensures Skipped(rest[j]) { assert rest[j] == details[j + 1]; }
        }
      } else if details[0].Garbled? {
        assert details[0].Garbled?;
      }
    }
  }

  /** The translation is documented never to raise. It does, exactly when the bytes of the rich
      status do not parse, or those of the first detail that it does not step over. */
  lemma RaisesExactlyOnUnparsableBytes(exc: RpcError)
    ensures Decode(exc).None? <==> exc.Call? && (exc.trailer.Unparsable? || (exc.trailer.Rich? && GarbledFirst(exc.trailer.details)))
  {
    ScanRaises(DetailsOf(exc), MessageOf(exc), Fallback(exc));
  }

  // ----- Rendering -------------------------------------------------------------------------

  const CONFIG_PATH := "  config path: "
  const SUGGESTION := "  suggestion: "
  const DOCS := "  docs: "
  const PIPELINE_ID := "  pipeline id (already created): "

  function Head(code: string, message: string): string {
    "[" + code + "] " + message
  }

  function Values(r: Report): seq<string> {
    [r.configPath, r.suggestion, r.docsUrl, r.pipelineId]
  }

  function Tags(): seq<string> {
    [CONFIG_PATH, SUGGESTION, DOCS, PIPELINE_ID]
  }

  function Labelled(tag: string, value: string): seq<string> {
    if value == "" then [] else [tag + value]
  }

  function Lines(r: Report): (lines: seq<string>)
    ensures lines != []
  {
    [Head(r.code, r.message)] + Tail(Tags(), Values(r))
  }

  /** A line for each value that is present. */
  function Tail(tags: seq<string>, values: seq<string>): seq<string>
    requires |tags| == |values|
  {
    if tags == [] then [] else Labelled(tags[0], values[0]) + Tail(tags[1..], values[1..])
  }

  function Render(r: Report): string {
    Join(Lines(r))
  }

  /** Reading a rendered error back: the bracketed code, the message, then each labelled line
      that is there. */
  function Reread(text: string): Report {
    var lines := SplitOn('\n', text);
    var (code, message) := RereadHead(lines[0]);
    var tail := RereadTail(Tags(), lines[1..]);
    Report(message, code, tail[0], tail[1], tail[2], tail[3])
  }

  function RereadTail(tags: seq<string>, lines: seq<string>): (values: seq<string>)
    ensures |values| == |tags|
  {
    if tags == [] then []
    else
      var (value, rest) := TakeLabel(tags[0], lines);
      [value] + RereadTail(tags[1..], rest)
  }

  function RereadHead(line: string): (string, string) {
    var parts := SplitOn(']', line);
    var code := if parts[0] == "" then "" else parts[0][1..];
    (code, if |parts[0]| + 2 <= |line| then line[|parts[0]| + 2..] else "")
  }

  function TakeLabel(tag: string, lines: seq<string>): (string, seq<string>) {
    if lines != [] && tag <= lines[0] then (lines[0][|tag|..], lines[1..]) else ("", lines)
  }

  /** What the text form can carry: no line feeds, and no closing bracket in the code. */
  ghost predicate Printable(r: Report) {
    && '\n' !in r.message && '\n' !in r.code && '\n' !in r.configPath
    && '\n' !in r.suggestion && '\n' !in r.docsUrl && '\n' !in r.pipelineId
    && ']' !in r.code
  }

  lemma HeadRecovered(code: string, message: string)
    requires ']' !in code
    ensures RereadHead(Head(code, message)) == (code, message)
  {
    var line := Head(code, message);
    assert line == ("[" + code) + [']'] + (" " + message);
    SplitAfterPiece(']', "[" + code, " " + message);
    assert ("[" + code)[1..] == code;
    assert line[|code| + 3..] == message;
  }

  lemma LabelTaken(tag: string, value: string, rest: seq<string>)
    requires tag != ""
    requires rest != [] ==> !(tag <= rest[0])
    ensures TakeLabel(tag, Labelled(tag, value) + rest) == (value, rest)
  {
    if value == "" {
      assert Labelled(tag, value) + rest == rest;
    } else {
      var lines := Labelled(tag, value) + rest;
      assert lines[0] == tag + value && lines[1..] == rest;
      assert tag <= tag + value && (tag + value)[|tag|..] == value;
    }
  }

  /** No tag starts a line that belongs to another. */
  ghost predicate Distinct(tags: seq<string>) {
    && (forall i :: 0 <= i < |tags| ==> |tags[i]| > 2)
    && (forall i, j :: 0 <= i < j < |tags| ==> tags[i][2] != tags[j][2])
  }

  lemma {:induction false} TailStart(tags: seq<string>, values: seq<string>, tag: string)
    requires |tags| == |values| && |tag| > 2 && forall i :: 0 <= i < |tags| ==> |tags[i]| > 2 && tags[i][2] != tag[2]
    ensures Tail(tags, values) != [] ==> !(tag <= Tail(tags, values)[0])
  {
    if tags != [] {
      TailStart(tags[1..], values[1..], tag);
      if values[0] != "" {
        assert (tags[0] + values[0])[2] == tags[0][2];
      }
    }
  }

  lemma {:induction false} TailRecovered(tags: seq<string>, values: seq<string>)
    requires |tags| == |values| && Distinct(tags)
    ensures RereadTail(tags, Tail(tags, values)) == values
  {
    if tags != [] {
      TailStart(tags[1..], values[1..], tags[0]);
      LabelTaken(tags[0], values[0], Tail(tags[1..], values[1..]));
      TailRecovered(tags[1..], values[1..]);
    }
  }

  lemma {:induction false} TailHasNoNewline(tags: seq<string>, values: seq<string>)
    requires |tags| == |values|
    requires forall t :: t in tags ==> '\n' !in t
    requires forall v :: v in values ==> '\n' !in v
    ensures forall l :: l in Tail(tags, values) ==> '\n' !in l
  {
    if tags != [] {
      assert tags[0] in tags && values[0] in values;
      TailHasNoNewline(tags[1..], values[1..]);
    }
  }

  lemma LinesRecovered(r: Report)
    requires Printable(r)
    ensures SplitOn('\n', Render(r)) == [Head(r.code, r.message)] + Tail(Tags(), Values(r))
  {
    TailHasNoNewline(Tags(), Values(r));
    SplitUndoesJoin(Lines(r));
  }

  /** Rendering loses nothing: with line-feed-free fields and a code without `]`, every field can
      be read back, for every combination of present and absent ones. */
  lemma RenderRoundTrip(r: Report)
    requires Printable(r)
    ensures Reread(Render(r)) == r
  {
    LinesRecovered(r);
    var lines := SplitOn('\n', Render(r));
    assert lines[0] == Head(r.code, r.message) && lines[1..] == Tail(Tags(), Values(r));
    HeadRecovered(r.code, r.message);
    TagsDistinct();
    TailRecovered(Tags(), Values(r));
  }

  lemma TagsDistinct()
    ensures Distinct(Tags())
  {
  }

  lemma RenderInjective(a: Report, b: Report)
    requires Printable(a) && Printable(b) && Render(a) == Render(b)
    ensures a == b
  {
    RenderRoundTrip(a);
    RenderRoundTrip(b);
  }

  lemma TailOfTwo(u: string, v: string, c: string, d: string)
    ensures Tail([u, v], [c, d]) == Labelled(u, c) + Labelled(v, d)
  {
    assert [u, v][1..] == [v] && [c, d][1..] == [d];
    assert [v][1..] == [] && [d][1..] == [];
    assert Tail([v], [d]) == Labelled(v, d);
  }

  lemma TailOfFour(s: string, t: string, u: string, v: string, a: string, b: string, c: string, d: string)
    ensures Tail([s, t, u, v], [a, b, c, d]) == Labelled(s, a) + Labelled(t, b) + Labelled(u, c) + Labelled(v, d)
  {
    TailOfTwo(u, v, c, d);
    assert [s, t, u, v][1..] == [t, u, v] && [a, b, c, d][1..] == [b, c, d];
    assert [t, u, v][1..] == [u, v] && [b, c, d][1..] == [c, d];
    assert Tail([t, u, v], [b, c, d]) == Labelled(t, b) + Tail([u, v], [c, d]);
  }

  lemma LinesOneByOne(r: Report)
    ensures Lines(r) == ["[" + r.code + "] " + r.message] + Labelled(CONFIG_PATH, r.configPath)
      + Labelled(SUGGESTION, r.suggestion) + Labelled(DOCS, r.docsUrl) + Labelled(PIPELINE_ID, r.pipelineId)
  {
    TailOfFour(CONFIG_PATH, SUGGESTION, DOCS, PIPELINE_ID, r.configPath, r.suggestion, r.docsUrl, r.pipelineId);
  }

  /** The text, spelled out: the code in brackets, the message, and a labelled line for each field
      that is present. */
  lemma RenderSpelledOut(r: Report)
    ensures Render(r) == "[" + r.code + "] " + r.message
      + (if r.configPath == "" then "" else "\n" + ("  config path: " + r.configPath))
      + (if r.suggestion == "" then "" else "\n" + ("  suggestion: " + r.suggestion))
      + (if r.docsUrl == "" then "" else "\n" + ("  docs: " + r.docsUrl))
      + (if r.pipelineId == "" then "" else "\n" + ("  pipeline id (already created): " + r.pipelineId))
  {
    LinesOneByOne(r);
    var head := ["[" + r.code + "] " + r.message];
    JoinLabelled(head, CONFIG_PATH, r.configPath);
    JoinLabelled(head + Labelled(CONFIG_PATH, r.configPath), SUGGESTION, r.suggestion);
    JoinLabelled(head + Labelled(CONFIG_PATH, r.configPath) + Labelled(SUGGESTION, r.suggestion), DOCS, r.docsUrl);
    JoinLabelled(head + Labelled(CONFIG_PATH, r.configPath) + Labelled(SUGGESTION, r.suggestion)
                 + Labelled(DOCS, r.docsUrl), PIPELINE_ID, r.pipelineId);
  }

  lemma JoinLabelled(lines: seq<string>, tag: string, value: string)
    requires lines != []
    ensures Join(lines + Labelled(tag, value)) == Join(lines) + (if value == "" then "" else "\n" + (tag + value))
  {
    if value == "" {
      assert lines + Labelled(tag, value) == lines;
    } else {
      JoinOneMore(lines, tag + value);
    }
  }

  lemma {:induction false} JoinOneMore(lines: seq<string>, line: string)
    requires lines != []
    ensures Join(lines + [line]) == Join(lines) + ("\n" + line)
  {
    if |lines| == 1 {
      JoinTwo(lines[0], line);
      assert lines + [line] == [lines[0], line];
    } else {
      assert (lines + [line])[1..] == lines[1..] + [line];
      JoinOneMore(lines[1..], line);
    }
  }

  lemma RenderHeadOnly(code: string, message: string)
    ensures Render(Report(message, code, "", "", "", "")) == Head(code, message)
  {
    LinesOneByOne(Report(message, code, "", "", "", ""));
  }

  lemma RenderWithDocs(code: string, message: string, docs: string)
    requires docs != ""
    ensures Render(Report(message, code, "", "", docs, "")) == Head(code, message) + ("\n" + (DOCS + docs))
  {
    var r := Report(message, code, "", "", docs, "");
    LinesOneByOne(r);
    assert Lines(r) == [Head(code, message), DOCS + docs];
    JoinTwo(Head(code, message), DOCS + docs);
  }

  lemma JoinTwo(a: string, b: string)
    ensures Join([a, b]) == a + ("\n" + b)
  {
    assert [a, b][1..] == [b];
    assert a + "\n" + b == a + ("\n" + b);
  }

  lemma HeadExtends(code: string, message: string, more: string)
    ensures Head(code, message + more) == Head(code, message) + more
  {
  }

  /** Neither condition can be dropped: a line feed in a message can pass for a documentation
      link ... */
  lemma NewlineCollides(code: string, message: string, docs: string)
    requires docs != ""
    ensures Render(Report(message + ("\n" + (DOCS + docs)), code, "", "", "", ""))
         == Render(Report(message, code, "", "", docs, ""))
  {
    RenderHeadOnly(code, message + ("\n" + (DOCS + docs)));
    RenderWithDocs(code, message, docs);
    HeadExtends(code, message, "\n" + (DOCS + docs));
  }

  /** ... and a bracket in a code for the start of the message. */
  lemma BracketCollides(code: string, message: string)
    ensures Render(Report(message, code + "] x", "", "", "", ""))
         == Render(Report("x] " + message, code, "", "", "", ""))
  {
    RenderHeadOnly(code + "] x", message);
    RenderHeadOnly(code, "x] " + message);
  }

  // ----- The exception object --------------------------------------------------------------

  class ConduitError {
    var message: string
    var code: string
    var grpcStatusCode: StatusCode
    var configPath: string
    var suggestion: string
    var docsUrl: string
    var pipelineId: string

    constructor (message: string, code: string, status: StatusCode,
                 configPath: string, suggestion: string, docsUrl: string, pipelineId: string)
      ensures Value() == Report(message, code, configPath, suggestion, docsUrl, pipelineId)
      ensures grpcStatusCode == status
    {
      this.message, this.code, grpcStatusCode := message, code, status;
      this.configPath, this.suggestion, this.docsUrl, this.pipelineId := configPath, suggestion, docsUrl, pipelineId;
    }

    function Value(): Report
      reads this
    {
      Report(message, code, configPath, suggestion, docsUrl, pipelineId)
    }

    /** `str(error)`. */
    method Str() returns (text: string)
      ensures text == Render(Value())
    {
      var lines := ["[" + code + "] " + message];
      if configPath != "" {
        lines := lines + [CONFIG_PATH + configPath];
      }
      if suggestion != "" {
        lines := lines + [SUGGESTION + suggestion];
      }
      if docsUrl != "" {
        lines := lines + [DOCS + docsUrl];
      }
      if pipelineId != "" {
        lines := lines + [PIPELINE_ID + pipelineId];
      }
      LinesOneByOne(Value());
      assert lines == Lines(Value());
      text := Join(lines);
    }

    /** `null` when parsing the status or unpacking a detail raises and the exception escapes. */
    static method FromRpcError(exc: RpcError) returns (error: ConduitError?)
      ensures error != null ==> fresh(error)
      ensures error == null <==> Decode(exc).None?
      ensures error != null ==> error.Value() == Decode(exc).value
      ensures error != null ==> error.grpcStatusCode == if exc.Call? then exc.code else UNKNOWN
    {
      var status := if exc.Call? then exc.code else UNKNOWN;
      var message := MessageOf(exc);
      if exc.Call? && exc.trailer.Unparsable? {
        return null;
      }
      if exc.Call? && exc.trailer.Rich? {
        var details := exc.trailer.details;
        for i := 0 to |details|
          invariant Decode(exc) == Scan(details[i..], message, Fallback(exc))
        {
          assert details[i..][1..] == details[i + 1..];
          if details[i].Garbled? {
            return null;
          }
          if details[i].Info? && details[i].domain == "conduit" {
            var info := details[i];
            error := new ConduitError(
              message, if info.reason != "" then info.reason else "internal.unknown", status,
              Get(info.metadata, "configPath"), Get(info.metadata, "suggestion"), Get(info.metadata, "docsUrl"), "");
            return;
          }
        }
      }
      error := new ConduitError(message, CodeFromStatus(status), status, "", "", "", "");
    }
  }
}
