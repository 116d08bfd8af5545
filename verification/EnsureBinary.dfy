/** `ensure_binary` itself, written as the code is: a sequence of system calls on a shared,
    mutable machine, in which the other callers move between any two of them. Each call is
    proved to be one step of the install protocol, so everything proved there about runs holds of
    this method. */
module EnsureBinary {
  import opened Prelude
  import opened Text
  import opened Provision
  import opened Install
  import opened InstallSafety

  /** Some run from an empty cache ends here. */
  ghost predicate Reachable(r: Release, s: State) {
    exists first, moves :: Initial(first) && Run(r, true, first, moves) == s
  }

  /** Some run leads from one state to the other. */
  ghost predicate Leads(r: Release, s: State, s': State) {
    exists moves :: Run(r, true, s, moves) == s'
  }

  lemma ReachableInv(r: Release, s: State)
    requires Reachable(r, s)
    ensures Inv(r, s)
  {
    var first, moves :| Initial(first) && Run(r, true, first, moves) == s;
    InitialInv(r, first);
    RunKeepsInv(r, first, moves);
  }

  lemma LeadsNowhere(r: Release, s: State)
    ensures Leads(r, s, s)
  {
    assert Run(r, true, s, []) == s;
  }

  lemma LeadsOn(r: Release, s: State, s': State, m: Move)
    requires Leads(r, s, s')
    ensures Leads(r, s, Step(r, true, s', m))
  {
    var moves :| Run(r, true, s, moves) == s';
    assert (moves + [m])[..|moves|] == moves;
    assert Run(r, true, s, moves + [m]) == Step(r, true, s', m);
  }

  lemma LeadsInv(r: Release, s: State, s': State)
    requires Reachable(r, s) && Leads(r, s, s')
    ensures Inv(r, s')
  {
    ReachableInv(r, s);
    var moves :| Run(r, true, s, moves) == s';
    RunKeepsInv(r, s, moves);
  }

  lemma LeadsCaller(r: Release, s: State, s': State, i: nat)
    requires Reachable(r, s) && Leads(r, s, s') && i < |s'.callers|
    ensures CallerOk(r, s'.disk, s'.callers[i])
  {
    LeadsInv(r, s, s');
  }

  lemma {:induction false} ReachableRun(r: Release, s: State, moves: seq<Move>)
    requires Reachable(r, s)
    ensures Reachable(r, Run(r, true, s, moves))
    decreases |moves|
  {
    if moves != [] {
      ReachableRun(r, s, moves[..|moves| - 1]);
      var first, before :| Initial(first) && Run(r, true, first, before) == Run(r, true, s, moves[..|moves| - 1]);
      var m := moves[|moves| - 1];
      assert (before + [m])[..|before|] == before;
      assert Run(r, true, first, before + [m]) == Run(r, true, s, moves);
    }
  }

  lemma LeadsReachable(r: Release, s: State, s': State)
    requires Reachable(r, s) && Leads(r, s, s')
    ensures Reachable(r, s')
  {
    var moves :| Run(r, true, s, moves) == s';
    ReachableRun(r, s, moves);
  }

  lemma LeadsTarget(r: Release, s: State, s': State, version: string)
    requires Reachable(r, s) && Leads(r, s, s') && Target(version) in s.disk.names
    ensures Target(version) in s'.disk.names
  {
    ReachableInv(r, s);
    var moves :| Run(r, true, s, moves) == s';
    TargetStays(r, s, moves, version);
  }

  /** A writer's descriptor is that of a file on the disk. */
  lemma LeadsWriter(r: Release, s: State, s': State, i: nat)
    requires Reachable(r, s) && Leads(r, s, s') && i < |s'.callers| && s'.callers[i].pc == Write
    ensures s'.callers[i].node < |s'.disk.nodes|
  {
    LeadsCaller(r, s, s', i);
  }

  lemma StepKeepsOthers(r: Release, s: State, m: Move, i: nat)
    requires i < |s.callers| && m.who != i
    ensures |Step(r, true, s, m).callers| == |s.callers| && Step(r, true, s, m).callers[i] == s.callers[i]
  {
  }

  // What the costlier steps come to, spelled out.

  lemma FetchStep(r: Release, s: State, who: nat, body: Bytes)
    requires who < |s.callers| && !s.callers[who].crashed
    requires s.callers[who].pc == FetchSums || (s.callers[who].pc == FetchArchive && r.supported)
    ensures var c := s.callers[who];
      && Step(r, true, s, Move(who, Fail)) == State(s.disk, s.callers[who := Raise(c, DOWNLOAD_FAILED)])
      && Step(r, true, s, Move(who, Deliver(body))) == State(s.disk, s.callers[who :=
           if c.pc == FetchArchive then c.(pc := FetchSums, archive := body, downloads := c.downloads + 1)
           else c.(pc := Verify, sums := body, downloads := c.downloads + 1)])
  {
  }

  lemma TempStep(r: Release, s: State, who: nat, name: string)
    requires who < |s.callers| && !s.callers[who].crashed && s.callers[who].pc == MakeTemp
    requires s.callers[who].version in s.disk.dirs
    ensures var c, d, path := s.callers[who], s.disk, Temp(s.callers[who].version, name);
      && Step(r, true, s, Move(who, Fail)) == State(d, s.callers[who := Raise(c, LibraryError)])
      && (NameFree(true, s, path) ==>
            Step(r, true, s, Move(who, Name(name)))
            == State(Disk(d.dirs, d.names[path := |d.nodes|], d.nodes + [File([], CREATED)]),
                     s.callers[who := c.(pc := Write, temp := path, node := |d.nodes|)]))
  {
  }

  lemma PieceStep(r: Release, s: State, who: nat, piece: Bytes)
    requires who < |s.callers| && !s.callers[who].crashed && s.callers[who].pc == Write && piece != []
    requires var c := s.callers[who];
      && c.node < |s.disk.nodes| && c.written + |piece| <= |c.binary|
      && piece == c.binary[c.written..c.written + |piece|]
    ensures var c, d := s.callers[who], s.disk;
      var f := d.nodes[c.node];
      Step(r, true, s, Move(who, Chunk(|piece|)))
      == State(Disk(d.dirs, d.names, d.nodes[c.node := f.(data := f.data + piece)]),
               s.callers[who := c.(written := c.written + |piece|)])
  {
  }

  /** How the world answers one call of `ensure_binary`: download bodies (`None` is an OSError),
      the names `mkstemp` tries in turn, which system calls fail, and in what pieces the data lands. */
  datatype Weather = Weather(
    archive: Option<Bytes>, sums: Option<Bytes>,
    mkdirFails: bool, mkstempFails: bool, tempNames: seq<string>,
    pieces: nat -> nat, writeFailsAt: Option<nat>,
    chmodFails: bool, renameFails: bool, unlinkFails: bool)

  predicate WriteFails(w: Weather, binary: Bytes) {
    w.writeFailsAt.Some? && w.writeFailsAt.value < |binary|
  }

  predicate FillFails(w: Weather, binary: Bytes) {
    WriteFails(w, binary) || w.chmodFails || w.renameFails
  }

  /** Some system call of an installation fails. */
  predicate SystemFails(w: Weather, binary: Bytes) {
    w.mkdirFails || w.mkstempFails || FillFails(w, binary) || w.unlinkFails
  }

  /** On the way from a state, at some moment every candidate name was taken. */
  ghost predicate NamesRunOut(r: Release, s: State, version: string, candidates: seq<string>) {
    exists mid :: Leads(r, s, mid)
      && forall i :: 0 <= i < |candidates| ==> !NameFree(true, mid, Temp(version, candidates[i]))
  }

  /** The verified binary, or the failure, that the downloads lead to. */
  function Obtained(h: Host, version: string, w: Weather): Result<Bytes, Failure> {
    if h.platform.None? then Err(UNSUPPORTED_PLATFORM)
    else if w.archive.None? || w.sums.None? then Err(DOWNLOAD_FAILED)
    else
      match ChecksumVerdict(h, w.archive.value, w.sums.value, ArchiveName(h.platform.value, h.windows, version))
      case Some(f) => Err(f)
      case None => Extraction(h, w.archive.value)
  }

  /** What the downloads lead to. The binary of the archive, exactly when the machine is known, both
      answers came, and the checksums list the archive's digest first under its asset name; otherwise
      the first thing in that order to go wrong, and then what extraction makes of it. */
  lemma {:induction false} ObtainedMeaning(h: Host, version: string, w: Weather)
    ensures var r := Obtained(h, version, w);
      if h.platform.None? then r == Err(ClientError("client.unsupported_platform"))
      else if w.archive.None? || w.sums.None? then r == Err(ClientError("client.download_failed"))
      else
        var (archive, asset) := (w.archive.value, ArchiveName(h.platform.value, h.windows, version));
        match h.decode(w.sums.value)
        case None => r == Err(LibraryError)
        case Some(text) =>
          r == if ListedFirst(SplitLines(text), asset, h.digest(archive)) then Extraction(h, archive)
               else Err(ClientError("client.checksum_mismatch"))
  {
    if h.platform.Some? && w.archive.Some? && w.sums.Some? {
      ChecksumMeaning(h, w.archive.value, w.sums.value, ArchiveName(h.platform.value, h.windows, version));
    }
  }

  /** The machine the callers share: its file system, and the locals of every caller. */
  class Machine {
    const host: Host
    var dirs: set<string>
    var names: map<Path, nat>
    var nodes: seq<File>
    var callers: seq<Caller>
    ghost var origin: State

    ghost function S(): State
      reads this
    {
      State(Disk(dirs, names, nodes), callers)
    }

    ghost function Rel(): Release { ReleaseOf(host) }

    /** The protocol can get from an empty cache to `origin`, and from there to this state. */
    ghost predicate Valid()
      reads this
    {
      Reachable(Rel(), origin) && Leads(Rel(), origin, S())
    }

    /** `me` is running and stands at `pc`. */
    ghost predicate Stands(me: nat, pc: Pc)
      reads this
    {
      Valid() && me < |callers| && !callers[me].crashed && callers[me].pc == pc
    }

    constructor (host: Host, versions: seq<string>)
      ensures Valid() && this.host == host && names == map[] && |callers| == |versions|
      ensures forall i :: 0 <= i < |versions| ==> callers[i] == Start(versions[i])
    {
      this.host := host;
      dirs, names, nodes := {}, map[], [];
      callers := seq(|versions|, i requires 0 <= i < |versions| => Start(versions[i]));
      origin := State(Disk({}, map[], []), seq(|versions|, i requires 0 <= i < |versions| => Start(versions[i])));
      new;
      assert Run(Rel(), true, S(), []) == S();
    }

    /** The other callers take the given steps. */
    method Others(me: nat, moves: seq<Move>)
      requires Valid() && me < |callers| && forall m :: m in moves ==> m.who != me
      modifies this
      ensures Valid() && origin == old(origin)
      ensures |callers| == |old(callers)| && callers[me] == old(callers[me])
    {
      for k := 0 to |moves|
        invariant Valid() && origin == old(origin)
        invariant |callers| == |old(callers)| && callers[me] == old(callers[me])
      {
        var before := State(Disk(dirs, names, nodes), callers);
        LeadsOn(Rel(), origin, before, moves[k]);
        StepKeepsOthers(Rel(), before, moves[k], me);
        var next := Step(ReleaseOf(host), true, before, moves[k]);
        dirs, names, nodes, callers := next.disk.dirs, next.disk.names, next.disk.nodes, next.callers;
      }
    }

    // ----- System calls ----------------------------------------------------------------------

    method Exists(me: nat, path: Path) returns (found: bool)
      requires Stands(me, CheckCache) && path == Target(callers[me].version)
      modifies this`callers
      ensures Valid() && found == (path in names)
      ensures callers == old(callers[me := callers[me].(pc := if path in names then Returned else FetchArchive)])
    {
      LeadsOn(Rel(), origin, S(), Move(me, Go));
      found := path in names;
      callers := callers[me := callers[me].(pc := if found then Returned else FetchArchive)];
    }

    method HttpGet(me: nat, answer: Option<Bytes>)
      requires Stands(me, FetchSums) || (Stands(me, FetchArchive) && host.platform.Some?)
      modifies this`callers
      ensures Valid()
      ensures callers == old(callers[me :=
        if answer.None? then Raise(callers[me], DOWNLOAD_FAILED)
        else if callers[me].pc == FetchArchive then
          callers[me].(pc := FetchSums, archive := answer.value, downloads := callers[me].downloads + 1)
        else
          callers[me].(pc := Verify, sums := answer.value, downloads := callers[me].downloads + 1)])
    {
      ghost var m := Move(me, if answer.Some? then Deliver(answer.value) else Fail);
      LeadsOn(Rel(), origin, S(), m);
      FetchStep(Rel(), S(), me, if answer.Some? then answer.value else []);
      var c := callers[me];
      if answer.None? {
        c := Raise(c, DOWNLOAD_FAILED);
      } else if c.pc == FetchArchive {
        c := c.(pc := FetchSums, archive := answer.value, downloads := c.downloads + 1);
      } else {
        c := c.(pc := Verify, sums := answer.value, downloads := c.downloads + 1);
      }
      callers := callers[me := c];
    }

    /** The caller's own computation came out as `c`; nothing on the disk is involved. */
    method Compute(me: nat, c: Caller)
      requires (Stands(me, FetchArchive) && host.platform.None?) || Stands(me, Verify) || Stands(me, Extract)
      requires c == Advance(Rel(), callers[me], S().disk, Go).0
      modifies this`callers
      ensures Valid() && callers == old(callers)[me := c]
    {
      LeadsOn(Rel(), origin, S(), Move(me, Go));
      callers := callers[me := c];
    }

    method MkDir(me: nat, fails: bool)
      requires Stands(me, MakeDir)
      modifies this`dirs, this`callers
      ensures Valid()
      ensures dirs == if fails then old(dirs) else old(dirs + {callers[me].version})
      ensures callers == old(callers[me :=
        if fails then Raise(callers[me], LibraryError) else callers[me].(pc := MakeTemp)])
    {
      ghost var m := Move(me, if fails then Fail else Go);
      LeadsOn(Rel(), origin, S(), m);
      if fails {
        callers := callers[me := Raise(callers[me], LibraryError)];
      } else {
        dirs := dirs + {callers[me].version};
        callers := callers[me := callers[me].(pc := MakeTemp)];
      }
    }

    /** The name is taken, or about to be unlinked by whoever used it last. */
    predicate Taken(path: Path)
      reads this
    {
      path in names || exists i :: 0 <= i < |callers| && Pending(callers[i]) && callers[i].temp == path
    }

    ghost predicate AllTaken(version: string, candidates: seq<string>)
      reads this
    {
      forall i :: 0 <= i < |candidates| ==> !NameFree(true, S(), Temp(version, candidates[i]))
    }

    /** Opens a new file under the first of the candidate names that is not taken; raises when all
        of them are, or for a reason of its own. */
    method MkStemp(me: nat, candidates: seq<string>, fails: bool) returns (made: Option<(nat, Path)>)
      requires Stands(me, MakeTemp)
      modifies this`names, this`nodes, this`callers
      ensures Valid()
      ensures made.None? <==> (fails || old(AllTaken(callers[me].version, candidates)))
      ensures made.Some? ==>
        var (fd, path) := made.value;
        && (exists i :: 0 <= i < |candidates|
             && path == Temp(old(callers[me].version), candidates[i]) && !old(Taken(path))
             && forall j :: 0 <= j < i ==> old(Taken(Temp(callers[me].version, candidates[j]))))
        && fd == |old(nodes)| && names == old(names)[path := fd]
        && nodes == old(nodes) + [File([], {OwnerRead, OwnerWrite})]
        && callers == old(callers)[me := old(callers[me]).(pc := Write, temp := path, node := fd)]
      ensures made.None? ==>
        && names == old(names) && nodes == old(nodes)
        && callers == old(callers[me := Raise(callers[me], LibraryError)])
    {
      var version := callers[me].version;
      var i := FirstFree(version, candidates);
      assert forall j :: 0 <= j < |candidates| ==>
        (Taken(Temp(version, candidates[j])) <==> !NameFree(true, S(), Temp(version, candidates[j])));
      if fails || i == |candidates| {
        Refuse(me);
        return None;
      }
      var fd, path := |nodes|, Temp(version, candidates[i]);
      Open(me, candidates[i]);
      return Some((fd, path));
    }

    method FirstFree(version: string, candidates: seq<string>) returns (i: nat)
      ensures i <= |candidates| && (i < |candidates| ==> !Taken(Temp(version, candidates[i])))
      ensures forall j :: 0 <= j < i ==> Taken(Temp(version, candidates[j]))
    {
      i := 0;
      while i < |candidates| && Taken(Temp(version, candidates[i]))
        invariant 0 <= i <= |candidates|
        invariant forall j :: 0 <= j < i ==> Taken(Temp(version, candidates[j]))
      {
        i := i + 1;
      }
    }

    method Refuse(me: nat)
      requires Stands(me, MakeTemp)
      modifies this`callers
      ensures Valid() && callers == old(callers[me := Raise(callers[me], LibraryError)])
    {
      LeadsCaller(Rel(), origin, S(), me);
      LeadsOn(Rel(), origin, S(), Move(me, Fail));
      TempStep(Rel(), S(), me, "");
      callers := callers[me := Raise(callers[me], LibraryError)];
    }

    /** `os.open` with O_CREAT and O_EXCL. */
    method Open(me: nat, name: string)
      requires Stands(me, MakeTemp) && !Taken(Temp(callers[me].version, name))
      modifies this`names, this`nodes, this`callers
      ensures Valid()
      ensures var path := Temp(old(callers[me].version), name);
        && names == old(names)[path := |old(nodes)|] && nodes == old(nodes) + [File([], CREATED)]
        && callers == old(callers)[me := old(callers[me]).(pc := Write, temp := path, node := |old(nodes)|)]
    {
      var path := Temp(callers[me].version, name);
      LeadsCaller(Rel(), origin, S(), me);
      LeadsOn(Rel(), origin, S(), Move(me, Name(name)));
      TempStep(Rel(), S(), me, name);
      assert NameFree(true, S(), path);
      callers := callers[me := callers[me].(pc := Write, temp := path, node := |nodes|)];
      names := names[path := |nodes|];
      nodes := nodes + [File([], CREATED)];
    }

    /** `size` more bytes of the binary reach the file behind `fd`. */
    method WritePiece(me: nat, fd: nat, piece: Bytes)
      requires Stands(me, Write) && fd == callers[me].node && piece != []
      requires var c := callers[me];
        c.written + |piece| <= |c.binary| && piece == c.binary[c.written..c.written + |piece|]
      modifies this`nodes, this`callers
      ensures Valid() && fd < |old(nodes)|
      ensures nodes == old(nodes)[fd := old(nodes)[fd].(data := old(nodes)[fd].data + piece)]
      ensures callers == old(callers[me := callers[me].(written := callers[me].written + |piece|)])
    {
      ghost var m := Move(me, Chunk(|piece|));
      LeadsOn(Rel(), origin, S(), m);
      LeadsWriter(Rel(), origin, S(), me);
      PieceStep(Rel(), S(), me, piece);
      var f := nodes[fd];
      nodes := nodes[fd := f.(data := f.data + piece)];
      callers := callers[me := callers[me].(written := callers[me].written + |piece|)];
    }

    /** The `with` block ends: everything is written and the file is closed, or a write failed. */
    method CloseFile(me: nat, failed: bool)
      requires Stands(me, Write) && (!failed ==> callers[me].written == |callers[me].binary|)
      modifies this`callers
      ensures Valid()
      ensures callers == old(callers[me := if failed then Bail(callers[me]) else callers[me].(pc := Chmod)])
    {
      ghost var m := Move(me, if failed then Fail else Go);
      LeadsOn(Rel(), origin, S(), m);
      callers := callers[me := if failed then Bail(callers[me]) else callers[me].(pc := Chmod)];
    }

    method AddExecutable(me: nat, path: Path, fails: bool)
      requires Stands(me, Chmod) && path == callers[me].temp
      modifies this`nodes, this`callers
      ensures Valid()
      ensures fails ==> nodes == old(nodes) && callers == old(callers[me := Bail(callers[me])])
      ensures !fails ==>
        && path in names && names[path] < |old(nodes)|
        && nodes == old(nodes)[names[path] :=
             old(nodes)[names[path]].(mode := old(nodes)[names[path]].mode + EXECUTABLE)]
        && callers == old(callers[me := callers[me].(pc := Rename)])
    {
      ghost var m := Move(me, if fails then Fail else Go);
      LeadsOn(Rel(), origin, S(), m);
      LeadsCaller(Rel(), origin, S(), me);
      if fails {
        callers := callers[me := Bail(callers[me])];
      } else {
        var n := names[path];
        nodes := nodes[n := nodes[n].(mode := nodes[n].mode + EXECUTABLE)];
        callers := callers[me := callers[me].(pc := Rename)];
      }
    }

    method Replace(me: nat, path: Path, target: Path, fails: bool)
      requires Stands(me, Rename) && path == callers[me].temp && target == Target(callers[me].version)
      modifies this`names, this`callers
      ensures Valid()
      ensures fails ==> names == old(names) && callers == old(callers[me := Bail(callers[me])])
      ensures !fails ==>
        && path in old(names) && names == (old(names) - {path})[target := old(names)[path]]
        && callers == old(callers[me := callers[me].(pc := Unlink, renamed := true)])
    {
      ghost var m := Move(me, if fails then Fail else Go);
      LeadsOn(Rel(), origin, S(), m);
      LeadsCaller(Rel(), origin, S(), me);
      if fails {
        callers := callers[me := Bail(callers[me])];
      } else {
        names := (names - {path})[target := names[path]];
        callers := callers[me := callers[me].(pc := Unlink, renamed := true)];
      }
    }

    method UnlinkIfPresent(me: nat, path: Path, fails: bool)
      requires Stands(me, Unlink) && path == callers[me].temp
      modifies this`names, this`callers
      ensures Valid()
      ensures names == if fails then old(names) else old(names) - {path}
      ensures callers == old(callers[me :=
        if fails then Raise(callers[me].(stranded := !callers[me].renamed), LibraryError)
        else callers[me].(pc := if callers[me].failure.None? then Returned else Raised)])
    {
      LeadsOn(Rel(), origin, S(), Move(me, if fails then Fail else Go));
      var c := callers[me];
      if fails {
        c := Raise(c.(stranded := !c.renamed), LibraryError);
      } else {
        names := names - {path};
        c := c.(pc := if c.failure.None? then Returned else Raised);
      }
      callers := callers[me := c];
    }

    // ----- The call --------------------------------------------------------------------------

    /** The two downloads. */
    method Fetch(me: nat, w: Weather, others: nat -> seq<Move>) returns (ok: bool)
      requires Stands(me, FetchArchive) && host.platform.Some?
      requires forall k, m :: m in others(k) ==> m.who != me
      modifies this
      ensures Valid() && origin == old(origin) && ok == (w.archive.Some? && w.sums.Some?)
      ensures Stands(me, if ok then Verify else Raised) && callers[me].version == old(callers[me].version)
      ensures callers[me].temp == old(callers[me].temp)
      ensures ok ==> callers[me].archive == w.archive.value && callers[me].sums == w.sums.value
      ensures !ok ==> callers[me].failure == Some(DOWNLOAD_FAILED)
    {
      HttpGet(me, w.archive);
      if w.archive.None? {
        return false;
      }
      Others(me, others(1));
      HttpGet(me, w.sums);
      return w.sums.Some?;
    }

    /** Verify what was downloaded and extract the binary from it. */
    method Accept(me: nat, archive: Bytes, sums: Bytes, name: string, others: nat -> seq<Move>)
      returns (r: Result<Bytes, Failure>)
      requires Stands(me, Verify) && host.platform.Some?
      requires callers[me].archive == archive && callers[me].sums == sums
      requires name == ArchiveName(host.platform.value, host.windows, callers[me].version)
      requires forall k, m :: m in others(k) ==> m.who != me
      modifies this
      ensures Valid() && origin == old(origin)
      ensures Stands(me, if r.Ok? then MakeDir else Raised) && callers[me].version == old(callers[me].version)
      ensures callers[me].temp == old(callers[me].temp)
      ensures r == match ChecksumVerdict(host, archive, sums, name)
                   case Some(f) => Err(f)
                   case None => Extraction(host, archive)
      ensures if r.Ok? then callers[me].binary == r.value else callers[me].failure == Some(r.error)
    {
      var failure := VerifyChecksum(host, archive, sums, name);
      if failure.Some? {
        Compute(me, Raise(callers[me], failure.value));
        return Err(failure.value);
      }
      Compute(me, callers[me].(pc := Extract));
      Others(me, others(3));
      r := ExtractBinary(host, archive);
      match r {
        case Err(f) => Compute(me, Raise(callers[me], f));
        case Ok(data) => Compute(me, callers[me].(pc := MakeDir, binary := data));
      }
    }

    /** Download, verify and extract. */
    method Obtain(me: nat, version: string, w: Weather, others: nat -> seq<Move>)
      returns (r: Result<Bytes, Failure>)
      requires Stands(me, FetchArchive) && callers[me].version == version
      requires forall k, m :: m in others(k) ==> m.who != me
      modifies this
      ensures Valid() && origin == old(origin) && r == Obtained(host, version, w)
      ensures Stands(me, if r.Ok? then MakeDir else Raised) && callers[me].version == version
      ensures callers[me].temp == old(callers[me].temp)
      ensures if r.Ok? then callers[me].binary == r.value else callers[me].failure == Some(r.error)
    {
      if host.platform.None? {
        Compute(me, Raise(callers[me], UNSUPPORTED_PLATFORM));
        return Err(UNSUPPORTED_PLATFORM);
      }
      var ok := Fetch(me, w, others);
      if !ok {
        return Err(DOWNLOAD_FAILED);
      }
      Others(me, others(2));
      var name := ArchiveName(host.platform.value, host.windows, version);
      r := Accept(me, w.archive.value, w.sums.value, name, others);
    }

    /** `f.write(binary)`: the data reaches the disk in pieces, or the write fails part-way. Either
        way the temp name leads to the file, which holds as much of the data as was written. */
    method WriteAll(me: nat, fd: nat, binary: Bytes, w: Weather, others: nat -> seq<Move>) returns (failed: bool)
      requires Stands(me, Write) && callers[me].node == fd && callers[me].binary == binary && callers[me].written == 0
      requires forall k, m :: m in others(k) ==> m.who != me
      modifies this
      ensures Valid() && origin == old(origin)
      ensures Stands(me, if failed then Unlink else Chmod) && callers[me].temp == old(callers[me].temp)
      ensures callers[me].version == old(callers[me].version)
      ensures callers[me].failure == if failed then Some(LibraryError) else None
      ensures callers[me].temp in names && names[callers[me].temp] == fd && fd < |nodes|
      ensures failed <==> WriteFails(w, binary)
      ensures nodes[fd].data == if failed then binary[..w.writeFailsAt.value] else binary
    {
      failed := WriteFails(w, binary);
      var end := if failed then w.writeFailsAt.value else |binary|;
      var written := 0;
      var k := 6;
      while written < end
        invariant Stands(me, Write) && origin == old(origin)
        invariant callers[me] == old(callers[me]).(written := written) && 0 <= written <= end
        decreases end - written
      {
        var size := if 0 < w.pieces(k) <= end - written then w.pieces(k) else end - written;
        WritePiece(me, fd, binary[written..written + size]);
        written := written + size;
        Others(me, others(k));
        k := k + 1;
      }
      LeadsCaller(Rel(), origin, S(), me);
      CloseFile(me, failed);
      LeadsCaller(Rel(), origin, S(), me);
    }

    /** The body of the `try`: write, make executable, rename; stops at the first failure. */
    method Fill(me: nat, fd: nat, path: Path, target: Path, binary: Bytes, w: Weather, others: nat -> seq<Move>)
      returns (failed: bool)
      requires Stands(me, Write) && callers[me].node == fd && callers[me].binary == binary && callers[me].written == 0
      requires path == callers[me].temp && target == Target(callers[me].version)
      requires forall k, m :: m in others(k) ==> m.who != me
      modifies this
      ensures Valid() && origin == old(origin)
      ensures Stands(me, Unlink) && callers[me].temp == path && callers[me].version == old(callers[me].version)
      ensures callers[me].failure == if failed then Some(LibraryError) else None
      ensures failed <==> FillFails(w, binary)
    {
      failed := WriteAll(me, fd, binary, w, others);
      if failed {
        return;
      }
      AddExecutable(me, path, w.chmodFails);
      if w.chmodFails {
        return true;
      }
      Others(me, others(7));
      Replace(me, path, target, w.renameFails);
      return w.renameFails;
    }

    /** The `try` with its `finally`. */
    method FillOrClean(me: nat, fd: nat, path: Path, target: Path, binary: Bytes, w: Weather, others: nat -> seq<Move>)
      returns (failed: bool)
      requires Stands(me, Write) && callers[me].node == fd && callers[me].binary == binary && callers[me].written == 0
      requires path == callers[me].temp && target == Target(callers[me].version)
      requires forall k, m :: m in others(k) ==> m.who != me
      modifies this
      ensures Valid() && origin == old(origin)
      ensures Stands(me, if failed then Raised else Returned) && callers[me].version == old(callers[me].version)
      ensures callers[me].failure == if failed then Some(LibraryError) else None
      ensures failed <==> FillFails(w, binary) || w.unlinkFails
      ensures callers[me].temp == path && (path in names <==> FillFails(w, binary) && w.unlinkFails)
    {
      failed := Fill(me, fd, path, target, binary, w, others);
      Others(me, others(8));
      LeadsCaller(Rel(), origin, S(), me);
      UnlinkIfPresent(me, path, w.unlinkFails);
      failed := failed || w.unlinkFails;
    }

    /** The temp file the caller made is still there only if filling it and unlinking it both failed. */
    ghost predicate LeavesTemp(me: nat, w: Weather, binary: Bytes)
      reads this
    {
      me < |callers| && callers[me].temp.Temp? && (callers[me].temp in names <==> FillFails(w, binary) && w.unlinkFails)
    }

    /** Write a temp file next to the target and rename it into place; whatever happens, unlink
        the temp name at the end. A caller that fails earlier has made no temp file. */
    method Publish(me: nat, version: string, binary: Bytes, w: Weather, others: nat -> seq<Move>)
      returns (failure: Option<Failure>)
      requires Stands(me, MakeDir) && callers[me].version == version && callers[me].binary == binary
      requires forall k, m :: m in others(k) ==> m.who != me
      modifies this
      ensures Valid() && origin == old(origin)
      ensures failure == None || failure == Some(LibraryError)
      ensures Stands(me, if failure.None? then Returned else Raised) && callers[me].version == version
      ensures callers[me].failure == failure
      ensures failure.None? ==> GoodBinary(host, S(), version)
      ensures callers[me].temp == old(callers[me].temp) || LeavesTemp(me, w, binary)
      ensures failure.None? ==> !SystemFails(w, binary)
      ensures failure.Some? ==> SystemFails(w, binary) || NamesRunOut(Rel(), origin, version, w.tempNames)
    {
      LeadsCaller(Rel(), origin, S(), me);
      MkDir(me, w.mkdirFails);
      if w.mkdirFails {
        return Some(LibraryError);
      }
      Others(me, others(4));
      ghost var mid := S();
      var made := MkStemp(me, w.tempNames, w.mkstempFails);
      if made.None? {
        assert Leads(Rel(), origin, mid);
        return Some(LibraryError);
      }
      var (fd, path) := made.value;
      Others(me, others(5));
      var failed := FillOrClean(me, fd, path, Target(version), binary, w, others);
      if failed {
        return Some(LibraryError);
      }
      Returns(me, version);
      return None;
    }

    /** A call that began in `s` has reason to fail like this: its downloads lead there; or they were
        good, and a system call failed or there was no temp name left. */
    ghost predicate FailsRightly(s: State, version: string, w: Weather, f: Failure) {
      match Obtained(host, version, w)
      case Err(g) => f == g
      case Ok(binary) =>
        f == LibraryError && (SystemFails(w, binary) || NamesRunOut(Rel(), s, version, w.tempNames))
    }

    /** Reuse what is cached, or obtain and publish. */
    method Provide(me: nat, version: string, w: Weather, others: nat -> seq<Move>)
      returns (failure: Option<Failure>)
      requires Stands(me, CheckCache) && callers[me].version == version
      requires forall k, m :: m in others(k) ==> m.who != me
      modifies this
      ensures Valid() && origin == old(origin)
      ensures Stands(me, if failure.None? then Returned else Raised) && callers[me].version == version
      ensures callers[me].temp == old(callers[me].temp)
        || (Obtained(host, version, w).Ok? && LeavesTemp(me, w, Obtained(host, version, w).value))
      ensures old(Target(version) in names) ==> failure.None? && callers[me].downloads == old(callers[me].downloads)
      ensures failure.None? ==>
        || callers[me].downloads == old(callers[me].downloads)
        || (Obtained(host, version, w).Ok? && !SystemFails(w, Obtained(host, version, w).value))
      ensures callers[me].failure == failure && (failure.None? ==> GoodBinary(host, S(), version))
      ensures failure.Some? ==> FailsRightly(origin, version, w, failure.value)
    {
      LeadsCaller(Rel(), origin, S(), me);
      var hit := Exists(me, Target(version));
      if hit {
        Returns(me, version);
        return None;
      }
      var obtained := Obtain(me, version, w, others);
      if obtained.Err? {
        return Some(obtained.error);
      }
      failure := Publish(me, version, obtained.value, w, others);
    }

    /** How a call that began in `s` leaves things: success hands out a good path, and either nothing
        was downloaded or nothing failed; failure is for a reason; and a temp file stays behind only
        where it could be neither filled nor unlinked. */
    ghost predicate Settled(s: State, me: nat, version: string, w: Weather, failure: Option<Failure>)
      reads this
    {
      && me < |callers| && callers[me].failure == failure
      && (match failure
          case None =>
            && callers[me].pc == Returned && GoodBinary(host, S(), version)
            && (callers[me].downloads == 0
                || (Obtained(host, version, w).Ok? && !SystemFails(w, Obtained(host, version, w).value)))
          case Some(f) => callers[me].pc == Raised && FailsRightly(s, version, w, f))
      && (callers[me].temp.Temp? ==>
            Obtained(host, version, w).Ok? && LeavesTemp(me, w, Obtained(host, version, w).value))
    }

    /** `ensure_binary(version)` by the caller `me`, while the others do whatever they do. */
    method Ensure(me: nat, version: Option<string>, env: Option<string>, w: Weather, others: nat -> seq<Move>)
      returns (r: Result<Path, Failure>)
      requires Valid() && me < |callers| && callers[me] == Start(ResolveVersion(version, env))
      requires forall k, m :: m in others(k) ==> m.who != me
      modifies this
      ensures Valid() && Leads(Rel(), old(S()), S())
      ensures var v := ResolveVersion(version, env);
        match r
        case Ok(path) => path == Target(v) && Settled(old(S()), me, v, w, None)
        case Err(f) => Settled(old(S()), me, v, w, Some(f))
      ensures old(Target(ResolveVersion(version, env)) in names) ==> r.Ok? && callers[me].downloads == 0
    {
      LeadsReachable(Rel(), origin, S());
      LeadsNowhere(Rel(), S());
      origin := S();
      var v := ResolveVersion(version, env);
      Others(me, others(0));
      if Target(v) in origin.disk.names {
        LeadsTarget(Rel(), origin, S(), v);
      }
      var failure := Provide(me, v, w, others);
      return if failure.Some? then Err(failure.value) else Ok(Target(v));
    }

    lemma Returns(me: nat, version: string)
      requires Stands(me, Returned) && callers[me].version == version
      ensures GoodBinary(host, S(), version)
    {
      LeadsCaller(Rel(), origin, S(), me);
      LeadsInv(Rel(), origin, S());
      InvGivesGoodBinary(host, S(), version);
    }
  }
}
