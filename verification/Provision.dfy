/** The parts of provisioning that only compute: which version, which archive, whether the
    archive is the published one, and which bytes inside it are the binary. */
module Provision {
  import opened Prelude
  import opened Text

  const DEFAULT_CONDUIT_VERSION := "0.18.0"

  /** What a failed provisioning raises: a structured client error with a stable code, or an
      exception of a library (undecodable text, an unreadable archive, an operating-system
      error outside the downloads) that the code lets through. */
  datatype Failure = ClientError(code: string) | LibraryError

  const UNSUPPORTED_PLATFORM := ClientError("client.unsupported_platform")
  const DOWNLOAD_FAILED := ClientError("client.download_failed")
  const CHECKSUM_MISMATCH := ClientError("client.checksum_mismatch")
  const MALFORMED_ASSET := ClientError("client.malformed_release_asset")

  /** One archive member, in archive order. */
  datatype Entry = Entry(name: string, isFile: bool, data: Bytes)

  datatype Platform = Platform(os: string, arch: string)

  /** The machine the client runs on. `platform` is absent when no release asset is known for
      it. SHA-256, UTF-8 decoding and archive decoding are arbitrary functions; the last two
      may fail. */
  datatype Host = Host(
    windows: bool,
    platform: Option<Platform>,
    digest: Bytes -> string,
    decode: Bytes -> Option<string>,
    unpack: Bytes -> Option<seq<Entry>>)

  function ArchiveName(p: Platform, windows: bool, version: string): string {
    "conduit_" + version + "_" + p.os + "_" + p.arch + "." + (if windows then "zip" else "tar.gz")
  }

  /** The parts of an asset name: `conduit`, the version, the operating system and the architecture,
      in this order, with the ending of the platform. */
  lemma AssetNameParts(p: Platform, windows: bool, version: string)
    requires '_' !in version && '_' !in p.os
    ensures var name := ArchiveName(p, windows, version);
      var ending := p.arch + (if windows then ".zip" else ".tar.gz");
      && SplitOn('_', name) == ["conduit", version, p.os] + SplitOn('_', ending)
      && |ending| <= |name| && name[|name| - |ending|..] == ending
  {
    var ending := p.arch + (if windows then ".zip" else ".tar.gz");
    var front := "conduit" + ['_'] + (version + ['_'] + (p.os + ['_']));
    assert ArchiveName(p, windows, version) == front + ending;
    assert front + ending == "conduit" + ['_'] + (version + ['_'] + (p.os + ['_'] + ending));
    SplitThree('_', "conduit", version, p.os, ending);
  }

  function BinaryName(windows: bool): string {
    if windows then "conduit.exe" else "conduit"
  }

  function StripV(version: string): string {
    if version != "" && version[0] == 'v' then version[1..] else version
  }

  function Chosen(version: Option<string>, env: Option<string>): string {
    if version.Some? && version.value != "" then version.value
    else if env.Some? && env.value != "" then env.value
    else DEFAULT_CONDUIT_VERSION
  }

  function ResolveVersion(version: Option<string>, env: Option<string>): string {
    StripV(Chosen(version, env))
  }

  /** An explicit version goes before the environment variable and that before the pinned default,
      an empty string counting as absent in the first two places. One leading `v` of the winner is
      immaterial, and only that can be missing from the outcome. */
  lemma Precedence(version: string, env: Option<string>)
    ensures version != "" ==> forall e :: ResolveVersion(Some(version), e) == ResolveVersion(Some(version), env)
    ensures forall absent: Option<string> :: absent in {None, Some("")} ==>
      && ResolveVersion(absent, Some(version)) == ResolveVersion(Some(version), absent)
      && ResolveVersion(absent, absent) == "0.18.0"
    ensures version != "" && version[0] != 'v' ==>
      ResolveVersion(Some(version), env) == version == ResolveVersion(Some("v" + version), env)
    ensures version != "" ==> ResolveVersion(Some(version), env) in {version, version[1..]}
  {
    assert ("v" + version)[1..] == version;
    assert forall e :: Chosen(Some(version), e) == Chosen(Some(version), env) || version == "";
    assert DEFAULT_CONDUIT_VERSION[0] == '0';
  }

  /** Resolving an already resolved version changes nothing exactly when the chosen text does not
      begin with two `v`, and, where it is a lone `v`, the environment makes the same choice. */
  lemma ResolvingTwice(version: Option<string>, env: Option<string>)
    ensures var chosen := Chosen(version, env);
      (ResolveVersion(Some(ResolveVersion(version, env)), env) == ResolveVersion(version, env))
        <==> !("vv" <= chosen) && (chosen == "v" ==> env == Some("v"))
  {
    var chosen := Chosen(version, env);
    var once := StripV(chosen);
    assert "vv" <= chosen <==> (once != "" && once[0] == 'v');
    assert "vv" <= chosen ==> |StripV(once)| < |once|;
    if once == "" {
      assert chosen == "v";
      assert DEFAULT_CONDUIT_VERSION[0] == '0';
      assert env.Some? && env.value != "" ==> (StripV(env.value) == "" <==> env.value == "v");
    }
  }

  // ----- Checksums -------------------------------------------------------------------------

  /** The digest on the first line that has exactly two fields, the second being `name`. */
  function FirstListed(lines: seq<string>, name: string): Option<string> {
    if lines == [] then None
    else
      var parts := Fields(lines[0]);
      if |parts| == 2 && parts[1] == name then Some(parts[0])
      else FirstListed(lines[1..], name)
  }

  predicate IsPair(line: string, name: string) {
    |Fields(line)| == 2 && Fields(line)[1] == name
  }

  /** Line `i` is the first pair for `name`, and has `digest` in front. */
  ghost predicate FirstPair(lines: seq<string>, name: string, digest: string, i: nat) {
    && i < |lines| && Fields(lines[i]) == [digest, name]
    && forall j :: 0 <= j < i ==> !IsPair(lines[j], name)
  }

  lemma {:induction false} FirstListedIsFirst(lines: seq<string>, name: string)
    ensures FirstListed(lines, name).Some? ==> exists i: nat :: FirstPair(lines, name, FirstListed(lines, name).value, i)
    ensures FirstListed(lines, name).None? ==> forall i :: 0 <= i < |lines| ==> !IsPair(lines[i], name)
  {
    if lines != [] {
      var rest := lines[1..];
      assert forall j :: 0 < j < |lines| ==> lines[j] == rest[j - 1];
      if IsPair(lines[0], name) {
        assert Fields(lines[0]) == [Fields(lines[0])[0], name];
        assert FirstPair(lines, name, FirstListed(lines, name).value, 0);
      } else {
        FirstListedIsFirst(rest, name);
        if FirstListed(rest, name).Some? {
          var i: nat :| FirstPair(rest, name, FirstListed(rest, name).value, i);
          assert FirstPair(lines, name, FirstListed(lines, name).value, i + 1);
        }
      }
    }
  }

  ghost predicate ListedFirst(lines: seq<string>, name: string, digest: string) {
    exists i: nat :: FirstPair(lines, name, digest, i)
  }

  lemma {:induction false} ListedFirstExactly(lines: seq<string>, name: string, digest: string)
    ensures FirstListed(lines, name) == Some(digest) <==> ListedFirst(lines, name, digest)
  {
    FirstListedIsFirst(lines, name);
    if i: nat :| FirstPair(lines, name, digest, i) {
      assert IsPair(lines[i], name) && FirstListed(lines, name).Some?;
      var j: nat :| FirstPair(lines, name, FirstListed(lines, name).value, j);
      assert IsPair(lines[j], name);
      assert i == j;
      assert FirstListed(lines, name).value == Fields(lines[j])[0] == digest;
    }
  }

  /** The verdict of checksum verification; `None` accepts the archive. */
  function ChecksumVerdict(h: Host, archive: Bytes, sums: Bytes, name: string): Option<Failure> {
    match h.decode(sums)
    case None => Some(LibraryError)
    case Some(text) =>
      if FirstListed(SplitLines(text), name) == Some(h.digest(archive)) then None
      else Some(CHECKSUM_MISMATCH)
  }

  method VerifyChecksum(h: Host, archive: Bytes, sums: Bytes, name: string)
    returns (failure: Option<Failure>)
    ensures failure == ChecksumVerdict(h, archive, sums, name)
  {
    var text := h.decode(sums);
    if text.None? {
      return Some(LibraryError);
    }
    var lines := SplitLines(text.value);
    var expected: Option<string> := None;
    for i := 0 to |lines|
      invariant expected.None?
      invariant FirstListed(lines, name) == FirstListed(lines[i..], name)
    {
      var parts := Fields(lines[i]);
      if |parts| == 2 && parts[1] == name {
        expected := Some(parts[0]);
        break;
      }
      assert lines[i..][1..] == lines[i + 1..];
    }
    if expected.None? {
      return Some(CHECKSUM_MISMATCH);
    }
    var actual := h.digest(archive);
    if actual != expected.value {
      return Some(CHECKSUM_MISMATCH);
    }
    return None;
  }

  /** Whatever the text, an archive is accepted exactly when the first line that is a pair for its
      name has its digest in front; not being listed is a mismatch as well. */
  lemma {:induction false} ChecksumMeaning(h: Host, archive: Bytes, sums: Bytes, name: string)
    ensures var verdict := ChecksumVerdict(h, archive, sums, name);
      match h.decode(sums)
      case None => verdict == Some(LibraryError)
      case Some(text) =>
        && (verdict.None? <==> ListedFirst(SplitLines(text), name, h.digest(archive)))
        && (verdict.Some? ==> verdict.value == ClientError("client.checksum_mismatch"))
  {
    var text := h.decode(sums);
    if text.Some? {
      ListedFirstExactly(SplitLines(text.value), name, h.digest(archive));
    }
  }

  /** What a checksums file is made of: published pairs, and lines that are something else. */
  datatype SumLine = Listed(digest: string, name: string) | Noise(text: string)

  function RenderLine(l: SumLine): string {
    match l
    case Listed(digest, name) => digest + "  " + name
    case Noise(text) => text
  }

  function RenderLines(ls: seq<SumLine>): seq<string> {
    if ls == [] then [] else [RenderLine(ls[0])] + RenderLines(ls[1..])
  }

  /** Pairs are non-empty and free of white space; a noise line is one line that does not
      happen to be a pair for the wanted name. */
  ghost predicate Publishable(l: SumLine, wanted: string) {
    match l
    case Listed(digest, name) => digest != "" && name != "" && SpaceFree(digest) && SpaceFree(name)
    case Noise(text) =>
      && BreakFree(text)
      && !(|Fields(text)| == 2 && Fields(text)[1] == wanted)
  }

  /** The digest first published for `wanted`. */
  function Published(ls: seq<SumLine>, wanted: string): Option<string> {
    if ls == [] then None
    else if ls[0].Listed? && ls[0].name == wanted then Some(ls[0].digest)
    else Published(ls[1..], wanted)
  }

  lemma {:induction false} ListedIsPublished(ls: seq<SumLine>, wanted: string)
    requires forall l :: l in ls ==> Publishable(l, wanted)
    ensures FirstListed(RenderLines(ls), wanted) == Published(ls, wanted)
    ensures forall s :: s in RenderLines(ls) ==> BreakFree(s)
  {
    if ls != [] {
      var l := ls[0];
      assert l in ls;
      match l {
        case Listed(digest, name) => FieldsOfPair(digest, name);
        case Noise(text) =>
      }
      ListedIsPublished(ls[1..], wanted);
      assert RenderLines(ls)[1..] == RenderLines(ls[1..]);
    }
  }

  /** Parsing undoes rendering: whatever the published pairs and whatever lies between them,
      verification accepts an archive exactly when its digest is the first one published under
      its name, and otherwise reports a mismatch. */
  lemma ChecksumRoundTrip(h: Host, archive: Bytes, sums: Bytes, ls: seq<SumLine>, wanted: string)
    requires forall l :: l in ls ==> Publishable(l, wanted)
    requires h.decode(sums) == Some(Unlines(RenderLines(ls)))
    ensures ChecksumVerdict(h, archive, sums, wanted)
         == if Published(ls, wanted) == Some(h.digest(archive)) then None else Some(CHECKSUM_MISMATCH)
  {
    ListedIsPublished(ls, wanted);
    SplitUndoesUnlines(RenderLines(ls));
  }

  // ----- Archive members -------------------------------------------------------------------

  /** The last of the path segments that name something. */
  function LastSegment(segments: seq<string>): string {
    if segments == [] then ""
    else
      var last := segments[|segments| - 1];
      if last != "" && last != "." then last else LastSegment(segments[..|segments| - 1])
  }

  /** `Path(name).name` for a path with forward slashes. */
  function FileName(path: string): string {
    LastSegment(SplitOn('/', path))
  }

  lemma {:induction false} LastPiece(sep: char, prefix: string, last: string)
    requires sep !in last
    ensures var pieces := SplitOn(sep, prefix + [sep] + last);
      pieces[|pieces| - 1] == last
    decreases |prefix|
  {
    var s := prefix + [sep] + last;
    if prefix == "" {
      assert s[1..] == last;
      SplitOnePiece(sep, last);
    } else {
      assert s[1..] == prefix[1..] + [sep] + last;
      LastPiece(sep, prefix[1..], last);
      SplitHasTwo(sep, prefix[1..], last);
    }
  }

  lemma {:induction false} SplitHasTwo(sep: char, prefix: string, last: string)
    ensures |SplitOn(sep, prefix + [sep] + last)| >= 2
    decreases |prefix|
  {
    var s := prefix + [sep] + last;
    if prefix == "" {
      assert s[1..] == last;
    } else {
      assert s[1..] == prefix[1..] + [sep] + last;
      SplitHasTwo(sep, prefix[1..], last);
    }
  }

  /** The directory an archive puts its binary in does not matter. */
  lemma FileNameInDirectory(directory: string, name: string)
    requires '/' !in name && name != "" && name != "."
    ensures FileName(directory + "/" + name) == name && FileName(name) == name
  {
    LastPiece('/', directory, name);
    SplitOnePiece('/', name);
  }

  /** Nor do slashes and dots after the name. */
  lemma FileNameBeforeDots(path: string)
    ensures FileName(path + "/") == FileName(path) && FileName(path + "/.") == FileName(path)
  {
    SplitBeforePiece('/', path, "");
    assert path + ['/'] + "" == path + "/";
    SplitBeforePiece('/', path, ".");
    assert path + ['/'] + "." == path + "/.";
    var segments := SplitOn('/', path);
    assert (segments + [""])[..|segments|] == segments && (segments + ["."])[..|segments|] == segments;
  }

  predicate TarMatch(e: Entry, binary: string) {
    FileName(e.name) == binary && e.isFile
  }

  function TarScan(entries: seq<Entry>, binary: string): Option<Bytes> {
    if entries == [] then None
    else if TarMatch(entries[0], binary) then Some(entries[0].data)
    else TarScan(entries[1..], binary)
  }

  /** `ZipFile.read(name)`: the table of contents keeps the last member of each name. */
  function ZipRead(entries: seq<Entry>, name: string): Bytes
    requires exists e :: e in entries && e.name == name
  {
    var last := entries[|entries| - 1];
    if last.name == name then last.data else ZipRead(entries[..|entries| - 1], name)
  }

  /** The name of the first member whose final path component is `binary`. */
  function ZipScan(entries: seq<Entry>, binary: string): (r: Option<string>)
    ensures r.Some? ==> exists e :: e in entries && e.name == r.value
  {
    if entries == [] then None
    else if FileName(entries[0].name) == binary then
      assert entries[0] in entries;
      Some(entries[0].name)
    else
      ZipScan(entries[1..], binary)
  }

  /** The bytes extraction yields, or the failure it raises. */
  function Extraction(h: Host, archive: Bytes): Result<Bytes, Failure> {
    match h.unpack(archive)
    case None => Err(LibraryError)
    case Some(entries) =>
      if h.windows then
        match ZipScan(entries, BinaryName(true)) {
          case Some(name) => Ok(ZipRead(entries, name))
          case None => Err(MALFORMED_ASSET)
        }
      else
        match TarScan(entries, BinaryName(false))
        case Some(data) => Ok(data)
        case None => Err(MALFORMED_ASSET)
  }

  /** Member `i` is the first regular one called `conduit`, in whatever directory. */
  ghost predicate FirstRegular(entries: seq<Entry>, i: nat) {
    && i < |entries| && FileName(entries[i].name) == "conduit" && entries[i].isFile
    && forall j :: 0 <= j < i ==> !(FileName(entries[j].name) == "conduit" && entries[j].isFile)
  }

  /** Member `p` is the first one called `conduit.exe`, and `q` the last one with the name of `p`. */
  ghost predicate LastOfFirstName(entries: seq<Entry>, p: nat, q: nat) {
    && p <= q < |entries| && FileName(entries[p].name) == "conduit.exe" && entries[q].name == entries[p].name
    && (forall j :: 0 <= j < p ==> FileName(entries[j].name) != "conduit.exe")
    && (forall j :: q < j < |entries| ==> entries[j].name != entries[q].name)
  }

  /** Which member's bytes extraction yields: on Windows of the last with the name of the first that
      is called `conduit.exe`, elsewhere of the first regular one called `conduit`. It fails when
      there is none, or when the archive cannot be read. */
  lemma {:induction false} ExtractionMeaning(h: Host, archive: Bytes)
    ensures match h.unpack(archive)
      case None => Extraction(h, archive) == Err(LibraryError)
      case Some(entries) =>
        match Extraction(h, archive)
        case Ok(data) =>
          if h.windows then exists p: nat, q: nat :: LastOfFirstName(entries, p, q) && data == entries[q].data
          else exists i: nat :: FirstRegular(entries, i) && data == entries[i].data
        case Err(f) =>
          && f == ClientError("client.malformed_release_asset")
          && forall j :: 0 <= j < |entries| ==>
               if h.windows then FileName(entries[j].name) != "conduit.exe"
               else !(FileName(entries[j].name) == "conduit" && entries[j].isFile)
  {
    var unpacked := h.unpack(archive);
    if unpacked.Some? {
      var entries := unpacked.value;
      assert forall j :: 0 <= j < |entries| ==> entries[j] in entries;
      if h.windows {
        WindowsExtraction(entries);
      } else {
        TarScanIsFirst(entries, "conduit");
        if TarScan(entries, "conduit").Some? {
          var i :| 0 <= i < |entries| && TarMatch(entries[i], "conduit") && entries[i].data == TarScan(entries, "conduit").value
                && forall j :: 0 <= j < i ==> !TarMatch(entries[j], "conduit");
          assert FirstRegular(entries, i);
        }
      }
    }
  }

  lemma {:induction false} WindowsExtraction(entries: seq<Entry>)
    ensures match ZipScan(entries, "conduit.exe")
      case Some(name) => exists p: nat, q: nat :: LastOfFirstName(entries, p, q) && ZipRead(entries, name) == entries[q].data
      case None => forall j :: 0 <= j < |entries| ==> FileName(entries[j].name) != "conduit.exe"
  {
    if ZipScan(entries, "conduit.exe").Some? {
      var p := ZipScanIsFirst(entries, "conduit.exe");
      ZipReadsLast(entries, entries[p].name);
      assert LastOfFirstName(entries, p, LastNamed(entries, entries[p].name));
    } else {
      ZipScanNone(entries, "conduit.exe");
      assert forall j :: 0 <= j < |entries| ==> entries[j] in entries;
    }
  }

  method ExtractBinary(h: Host, archive: Bytes) returns (r: Result<Bytes, Failure>)
    ensures r == Extraction(h, archive)
  {
    var unpacked := h.unpack(archive);
    if unpacked.None? {
      return Err(LibraryError);
    }
    var entries := unpacked.value;
    if h.windows {
      for i := 0 to |entries|
        invariant ZipScan(entries, BinaryName(true)) == ZipScan(entries[i..], BinaryName(true))
      {
        if FileName(entries[i].name) == BinaryName(true) {
          assert entries[i] in entries;
          return Ok(ZipRead(entries, entries[i].name));
        }
        assert entries[i..][1..] == entries[i + 1..];
      }
    } else {
      for i := 0 to |entries|
        invariant TarScan(entries, BinaryName(false)) == TarScan(entries[i..], BinaryName(false))
      {
        if TarMatch(entries[i], BinaryName(false)) {
          return Ok(entries[i].data);
        }
        assert entries[i..][1..] == entries[i + 1..];
      }
    }
    return Err(MALFORMED_ASSET);
  }

  /** A tar extraction is the first regular member of that name, and fails only when there is none. */
  lemma {:induction false} TarScanIsFirst(entries: seq<Entry>, binary: string)
    ensures match TarScan(entries, binary)
      case Some(data) =>
        exists i :: 0 <= i < |entries| && TarMatch(entries[i], binary) && entries[i].data == data
                 && forall j :: 0 <= j < i ==> !TarMatch(entries[j], binary)
      case None => forall e :: e in entries ==> !TarMatch(e, binary)
  {
    if entries != [] && !TarMatch(entries[0], binary) {
      TarScanIsFirst(entries[1..], binary);
      if TarScan(entries[1..], binary).Some? {
        var i :| 0 <= i < |entries[1..]| && TarMatch(entries[1..][i], binary)
              && entries[1..][i].data == TarScan(entries, binary).value
              && forall j :: 0 <= j < i ==> !TarMatch(entries[1..][j], binary);
        assert TarMatch(entries[i + 1], binary);
        forall j | 0 <= j < i + 1 ensures !TarMatch(entries[j], binary) {
          if j > 0 { assert entries[j] == entries[1..][j - 1]; }
        }
      }
    }
  }

  ghost predicate UniqueNames(entries: seq<Entry>) {
    forall i, j :: 0 <= i < j < |entries| ==> entries[i].name != entries[j].name
  }

  lemma {:induction false} ZipReadUnique(entries: seq<Entry>, i: nat)
    requires i < |entries| && UniqueNames(entries)
    ensures entries[i] in entries && ZipRead(entries, entries[i].name) == entries[i].data
  {
    if i < |entries| - 1 {
      var shorter := entries[..|entries| - 1];
      assert shorter[i] == entries[i];
      ZipReadUnique(shorter, i);
    }
  }

  lemma {:induction false} ZipScanIsFirst(entries: seq<Entry>, binary: string) returns (i: nat)
    requires ZipScan(entries, binary).Some?
    ensures i < |entries| && entries[i].name == ZipScan(entries, binary).value
    ensures FileName(entries[i].name) == binary
    ensures forall j :: 0 <= j < i ==> FileName(entries[j].name) != binary
  {
    if FileName(entries[0].name) == binary {
      i := 0;
    } else {
      var k := ZipScanIsFirst(entries[1..], binary);
      i := k + 1;
      forall j | 0 <= j < i ensures FileName(entries[j].name) != binary {
        if j > 0 { assert entries[j] == entries[1..][j - 1]; }
      }
    }
  }

  // ----- The two readers compared, by the index of the member each takes --------------------

  /** The index of the first member that `p` holds of, or the length when there is none. */
  function FirstWhere(entries: seq<Entry>, p: Entry -> bool): (i: nat)
    ensures i <= |entries| && (i < |entries| ==> p(entries[i]))
    ensures forall j :: 0 <= j < i ==> !p(entries[j])
  {
    if entries == [] || p(entries[0]) then 0
    else
      assert forall j :: 0 < j < |entries| ==> entries[j] == entries[1..][j - 1];
      1 + FirstWhere(entries[1..], p)
  }

  /** The index of the last member of that name, or the length when there is none. */
  function LastNamed(entries: seq<Entry>, name: string): (i: nat)
    ensures i <= |entries| && (i < |entries| ==> entries[i].name == name)
    ensures forall j :: (if i == |entries| then 0 else i + 1) <= j < |entries| ==> entries[j].name != name
  {
    if entries == [] then 0
    else
      var n := |entries| - 1;
      if entries[n].name == name then n
      else
        var i := LastNamed(entries[..n], name);
        if i == n then n + 1 else i
  }

  function ZipPick(entries: seq<Entry>, binary: string): nat {
    FirstWhere(entries, (e: Entry) => FileName(e.name) == binary)
  }

  function TarPick(entries: seq<Entry>, binary: string): nat {
    FirstWhere(entries, (e: Entry) => TarMatch(e, binary))
  }

  /** The member whose bytes the zip reader returns. */
  function ZipTaken(entries: seq<Entry>, binary: string): nat {
    var i := ZipPick(entries, binary);
    if i < |entries| then LastNamed(entries, entries[i].name) else i
  }

  function DataAt(entries: seq<Entry>, i: nat): Option<Bytes> {
    if i < |entries| then Some(entries[i].data) else None
  }

  function ZipData(entries: seq<Entry>, binary: string): Option<Bytes> {
    match ZipScan(entries, binary)
    case Some(name) => Some(ZipRead(entries, name))
    case None => None
  }

  lemma {:induction false} ZipReadsLast(entries: seq<Entry>, name: string)
    requires exists e :: e in entries && e.name == name
    ensures LastNamed(entries, name) < |entries| && ZipRead(entries, name) == entries[LastNamed(entries, name)].data
  {
    var n := |entries| - 1;
    if entries[n].name != name {
      var e :| e in entries && e.name == name;
      assert e in entries[..n];
      ZipReadsLast(entries[..n], name);
    }
  }

  /** What either reader returns is the data of the member it takes. */
  lemma {:induction false} ReadersTake(entries: seq<Entry>, binary: string)
    ensures TarScan(entries, binary) == DataAt(entries, TarPick(entries, binary))
    ensures ZipData(entries, binary) == DataAt(entries, ZipTaken(entries, binary))
  {
    var t := TarPick(entries, binary);
    assert t < |entries| ==> entries[t] in entries;
    TarScanIsFirst(entries, binary);
    if TarScan(entries, binary).Some? {
      var i :| 0 <= i < |entries| && TarMatch(entries[i], binary) && entries[i].data == TarScan(entries, binary).value
            && forall j :: 0 <= j < i ==> !TarMatch(entries[j], binary);
      assert i == t;
    }
    var z := ZipPick(entries, binary);
    assert z < |entries| ==> entries[z] in entries;
    if ZipScan(entries, binary).Some? {
      var i := ZipScanIsFirst(entries, binary);
      assert i == z;
      ZipReadsLast(entries, entries[i].name);
    } else {
      ZipScanNone(entries, binary);
    }
  }

  /** Every member that carries the binary's name and is no file comes after a regular one. */
  ghost predicate FilesFirst(entries: seq<Entry>, binary: string) {
    forall i :: 0 <= i < |entries| && FileName(entries[i].name) == binary && !entries[i].isFile ==>
      exists j :: 0 <= j < i && TarMatch(entries[j], binary)
  }

  /** The zip reader does not ask whether the member is a file. It picks the member the tar reader
      picks exactly when that makes no difference. */
  lemma PicksAgreeExactlyWhen(entries: seq<Entry>, binary: string)
    ensures ZipPick(entries, binary) == TarPick(entries, binary) <==> FilesFirst(entries, binary)
  {
    var z, t := ZipPick(entries, binary), TarPick(entries, binary);
    if z == t {
      forall i | 0 <= i < |entries| && FileName(entries[i].name) == binary && !entries[i].isFile
        ensures exists j :: 0 <= j < i && TarMatch(entries[j], binary)
      {
        assert z <= i && TarMatch(entries[z], binary);
      }
    } else if z < |entries| {
      assert !entries[z].isFile && forall j :: 0 <= j < z ==> !TarMatch(entries[j], binary);
    }
  }

  /** Member `p` is the first candidate, and the last member of its name is `q`, the first regular
      candidate. */
  ghost predicate LastOfNameIsFile(entries: seq<Entry>, binary: string, p: nat, q: nat) {
    && p <= q < |entries| && entries[p].name == entries[q].name && TarMatch(entries[q], binary)
    && (forall i :: 0 <= i < p ==> FileName(entries[i].name) != binary)
    && (forall i :: 0 <= i < q ==> !TarMatch(entries[i], binary))
    && (forall i :: q < i < |entries| ==> entries[i].name != entries[q].name)
  }

  lemma LastOfNameIsTaken(entries: seq<Entry>, binary: string, p: nat, q: nat)
    requires LastOfNameIsFile(entries, binary, p, q)
    ensures ZipTaken(entries, binary) == q == TarPick(entries, binary)
  {
    assert ZipPick(entries, binary) == p;
    assert TarPick(entries, binary) == q;
  }

  /** Nor does it return the bytes of its pick: it looks the name up again, and the last member of
      a repeated name wins. So the readers take the same member exactly when there is no candidate,
      or the last member with the name of the first candidate is the first regular candidate. */
  lemma MembersAgreeExactlyWhen(entries: seq<Entry>, binary: string)
    ensures ZipTaken(entries, binary) == TarPick(entries, binary)
      <==> ((forall i :: 0 <= i < |entries| ==> FileName(entries[i].name) != binary)
            || (exists p, q :: LastOfNameIsFile(entries, binary, p, q)))
  {
    var z, q := ZipPick(entries, binary), ZipTaken(entries, binary);
    if z < |entries| && q == TarPick(entries, binary) {
      assert LastOfNameIsFile(entries, binary, z, q);
    }
    if p, r :| LastOfNameIsFile(entries, binary, p, r) {
      LastOfNameIsTaken(entries, binary, p, r);
    }
  }

  /** Where names are unique the second point is idle: the readers take the same member, and hence
      the same bytes, exactly when files come first. */
  lemma {:induction false} ZipAgreesWithTar(entries: seq<Entry>, binary: string)
    requires UniqueNames(entries)
    ensures ZipTaken(entries, binary) == TarPick(entries, binary) <==> FilesFirst(entries, binary)
    ensures FilesFirst(entries, binary) ==> ZipData(entries, binary) == TarScan(entries, binary)
  {
    ReadersTake(entries, binary);
    PicksAgreeExactlyWhen(entries, binary);
    assert ZipTaken(entries, binary) == ZipPick(entries, binary);
  }

  lemma {:induction false} ZipScanNone(entries: seq<Entry>, binary: string)
    requires ZipScan(entries, binary).None?
    ensures forall e :: e in entries ==> FileName(e.name) != binary
  {
    if entries != [] {
      ZipScanNone(entries[1..], binary);
    }
  }

  /** A directory that carries the binary's name and comes first is taken for the binary by the
      zip reader, which then yields no bytes at all; the tar reader skips it. */
  lemma ZipTakesDirectory(binary: string, data: Bytes)
    requires '/' !in binary && binary != "" && binary != "."
    ensures var entries := [Entry(binary + "/", false, []), Entry(binary, true, data)];
      && ZipScan(entries, binary) == Some(binary + "/")
      && ZipRead(entries, binary + "/") == []
      && TarScan(entries, binary) == Some(data)
  {
    var entries := [Entry(binary + "/", false, []), Entry(binary, true, data)];
    FileNameBeforeDots(binary);
    SplitOnePiece('/', binary);
    assert entries[..1] == [entries[0]] && entries[1..] == [entries[1]];
    assert |entries[0].name| != |entries[1].name|;
  }

  /** The archive was vouched for by the checksums downloaded with it: they list its digest first
      under its own name. */
  ghost predicate Accepts(h: Host, version: string, archive: Bytes, sums: Bytes) {
    && h.platform.Some?
    && h.decode(sums).Some?
    && ListedFirst(SplitLines(h.decode(sums).value), ArchiveName(h.platform.value, h.windows, version), h.digest(archive))
  }
}
