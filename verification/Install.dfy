/** The lock-free install protocol of the binary cache, as a state machine: any number of
    callers of `ensure_binary`, each with a program counter, over one shared disk. Every system
    call is one step, writes land in pieces, any call may fail, and a caller may be killed
    between any two steps.

    The disk has inodes, because the protocol does: data is written through a descriptor, while
    `chmod`, `rename` and `unlink` go by name. */
module Install {
  import opened Prelude
  import opened Provision

  /** The computations a caller makes, as the protocol sees them: whether a release asset is
      known for this machine, the verdict on a downloaded archive for a version (`None`
      accepts), and the binary inside an archive. `ReleaseOf` below gives the real ones. */
  datatype Release = Release(
    supported: bool,
    verdict: (string, Bytes, Bytes) -> Option<Failure>,
    extract: Bytes -> Result<Bytes, Failure>)

  // ----- The disk --------------------------------------------------------------------------

  datatype Path = Target(version: string) | Temp(version: string, name: string)

  datatype ModeBit = OwnerRead | OwnerWrite | OwnerExec | GroupExec | OtherExec

  const CREATED: set<ModeBit> := {OwnerRead, OwnerWrite}
  const EXECUTABLE: set<ModeBit> := {OwnerExec, GroupExec, OtherExec}

  datatype File = File(data: Bytes, mode: set<ModeBit>)

  /** Cache directories that exist, the inode each name leads to, and the inodes. */
  datatype Disk = Disk(dirs: set<string>, names: map<Path, nat>, nodes: seq<File>) {
    predicate Has(p: Path) {
      p in names && names[p] < |nodes|
    }

    function At(p: Path): File
      requires Has(p)
    {
      nodes[names[p]]
    }
  }

  // ----- One caller ------------------------------------------------------------------------

  datatype Pc =
    | CheckCache | FetchArchive | FetchSums | Verify | Extract
    | MakeDir | MakeTemp | Write | Chmod | Rename | Unlink
    | Returned | Raised

  /** The locals of one `ensure_binary` call. `node` is the inode behind its descriptor and
      `written` how much has reached it; `renamed` says that its rename took effect, and `stranded`
      that it did not and the unlink failed as well. */
  datatype Caller = Caller(
    version: string, pc: Pc, crashed: bool, downloads: nat,
    archive: Bytes, sums: Bytes, binary: Bytes,
    temp: Path, node: nat, written: nat, renamed: bool, stranded: bool, failure: Option<Failure>)

  function Start(version: string): Caller {
    Caller(version, CheckCache, false, 0, [], [], [], Target(version), 0, 0, false, false, None)
  }

  /** What the environment contributes to a step. */
  datatype Act =
    | Go                     // the step does its work
    | Fail                   // its system call or download fails
    | Deliver(body: Bytes)   // a download answers
    | Name(name: string)     // mkstemp's choice
    | Chunk(size: nat)       // how much of the data reaches the disk
    | Crash                  // the caller's process dies here

  /** How far along the protocol a program point is. */
  function Rank(pc: Pc): nat {
    match pc
    case CheckCache => 0
    case FetchArchive => 1
    case FetchSums => 2
    case Verify => 3
    case Extract => 4
    case MakeDir => 5
    case MakeTemp => 6
    case Write => 7
    case Chmod => 8
    case Rename => 9
    case Unlink => 10
    case Returned => 11
    case Raised => 11
  }

  predicate Finished(c: Caller) {
    c.pc == Returned || c.pc == Raised
  }

  /** The caller still has a temp file of its own. */
  predicate Holding(c: Caller) {
    c.pc == Write || c.pc == Chmod || c.pc == Rename || (c.pc == Unlink && !c.renamed) || c.stranded
  }

  /** The caller has renamed its temp file away and is about to unlink that name all the same. */
  predicate Pending(c: Caller) {
    c.pc == Unlink && c.renamed && !c.crashed
  }

  datatype State = State(disk: Disk, callers: seq<Caller>)

  datatype Move = Move(who: nat, act: Act)

  /** `mkstemp` never opens a name that exists. With `strict` it also avoids the names that a
      live caller has renamed away but not yet unlinked. */
  predicate NameFree(strict: bool, s: State, p: Path) {
    && p !in s.disk.names
    && (strict ==> forall i :: 0 <= i < |s.callers| && Pending(s.callers[i]) ==> s.callers[i].temp != p)
  }

  /** The acts that make sense where the caller stands. */
  predicate Fits(r: Release, c: Caller, act: Act) {
    match act
    case Crash => true
    case Go =>
      && (c.pc == FetchArchive ==> !r.supported)
      && c.pc != FetchSums && c.pc != MakeTemp
      && (c.pc == Write ==> c.written == |c.binary|)
    case Fail =>
      && Rank(FetchArchive) <= Rank(c.pc) <= Rank(Unlink) && c.pc != Verify && c.pc != Extract
      && (c.pc == FetchArchive ==> r.supported)
    case Deliver(_) => c.pc == FetchSums || (c.pc == FetchArchive && r.supported)
    case Name(_) => c.pc == MakeTemp
    case Chunk(size) => c.pc == Write && 0 < size && c.written + size <= |c.binary|
  }

  predicate Enabled(r: Release, strict: bool, s: State, m: Move) {
    && m.who < |s.callers|
    && var c := s.callers[m.who];
       && !c.crashed && !Finished(c)
       && Fits(r, c, m.act)
       && (m.act.Name? ==> c.version in s.disk.dirs && NameFree(strict, s, Temp(c.version, m.act.name)))
  }

  function Raise(c: Caller, f: Failure): Caller {
    c.(pc := Raised, failure := Some(f))
  }

  /** A failure inside the `try`: the `finally` clause unlinks first. */
  function Bail(c: Caller): Caller {
    c.(pc := Unlink, failure := Some(LibraryError))
  }

  function DoCheckCache(c: Caller, d: Disk): Caller {
    c.(pc := if Target(c.version) in d.names then Returned else FetchArchive)
  }

  function DoFetchArchive(r: Release, c: Caller, act: Act): Caller {
    if !r.supported then Raise(c, UNSUPPORTED_PLATFORM)
    else if act.Deliver? then c.(pc := FetchSums, archive := act.body, downloads := c.downloads + 1)
    else Raise(c, DOWNLOAD_FAILED)
  }

  function DoFetchSums(c: Caller, act: Act): Caller {
    if act.Deliver? then c.(pc := Verify, sums := act.body, downloads := c.downloads + 1)
    else Raise(c, DOWNLOAD_FAILED)
  }

  function DoVerify(r: Release, c: Caller): Caller {
    match r.verdict(c.version, c.archive, c.sums)
    case None => c.(pc := Extract)
    case Some(f) => Raise(c, f)
  }

  function DoExtract(r: Release, c: Caller): Caller {
    match r.extract(c.archive)
    case Ok(data) => c.(pc := MakeDir, binary := data)
    case Err(f) => Raise(c, f)
  }

  function DoMakeDir(c: Caller, d: Disk, act: Act): (Caller, Disk) {
    if act == Fail then (Raise(c, LibraryError), d)
    else (c.(pc := MakeTemp), d.(dirs := d.dirs + {c.version}))
  }

  function DoMakeTemp(c: Caller, d: Disk, act: Act): (Caller, Disk) {
    if act.Name? then
      var temp := Temp(c.version, act.name);
      (c.(pc := Write, temp := temp, node := |d.nodes|),
       d.(names := d.names[temp := |d.nodes|], nodes := d.nodes + [File([], CREATED)]))
    else (Raise(c, LibraryError), d)
  }

  function DoWrite(c: Caller, d: Disk, act: Act): (Caller, Disk) {
    if act.Chunk? && c.written + act.size <= |c.binary| && c.node < |d.nodes| then
      var f := d.nodes[c.node];
      var piece := c.binary[c.written..c.written + act.size];
      (c.(written := c.written + act.size),
       d.(nodes := d.nodes[c.node := f.(data := f.data + piece)]))
    else if act == Go then (c.(pc := Chmod), d)
    else (Bail(c), d)
  }

  function DoChmod(c: Caller, d: Disk, act: Act): (Caller, Disk) {
    if act == Go && d.Has(c.temp) then
      var n := d.names[c.temp];
      var f := d.nodes[n];
      (c.(pc := Rename), d.(nodes := d.nodes[n := f.(mode := f.mode + EXECUTABLE)]))
    else (Bail(c), d)
  }

  function DoRename(c: Caller, d: Disk, act: Act): (Caller, Disk) {
    if act == Go && d.Has(c.temp) then
      (c.(pc := Unlink, renamed := true),
       d.(names := (d.names - {c.temp})[Target(c.version) := d.names[c.temp]]))
    else (Bail(c), d)
  }

  /** An exception of the unlink itself replaces whatever was on its way. */
  function DoUnlink(c: Caller, d: Disk, act: Act): (Caller, Disk) {
    if act == Fail then (Raise(c.(stranded := !c.renamed), LibraryError), d)
    else (c.(pc := if c.failure.None? then Returned else Raised), d.(names := d.names - {c.temp}))
  }

  /** One step of one caller: its next locals and the next disk. */
  function Advance(r: Release, c: Caller, d: Disk, act: Act): (Caller, Disk) {
    if act == Crash then (c.(crashed := true), d)
    else match c.pc
      case CheckCache => (DoCheckCache(c, d), d)
      case FetchArchive => (DoFetchArchive(r, c, act), d)
      case FetchSums => (DoFetchSums(c, act), d)
      case Verify => (DoVerify(r, c), d)
      case Extract => (DoExtract(r, c), d)
      case MakeDir => DoMakeDir(c, d, act)
      case MakeTemp => DoMakeTemp(c, d, act)
      case Write => DoWrite(c, d, act)
      case Chmod => DoChmod(c, d, act)
      case Rename => DoRename(c, d, act)
      case Unlink => DoUnlink(c, d, act)
      case Returned => (c, d)
      case Raised => (c, d)
  }

  /** A move that is not enabled leaves the state as it is, so every sequence of moves is a run. */
  function Step(r: Release, strict: bool, s: State, m: Move): State {
    if !Enabled(r, strict, s, m) then s
    else
      var (c, d) := Advance(r, s.callers[m.who], s.disk, m.act);
      State(d, s.callers[m.who := c])
  }

  function Run(r: Release, strict: bool, s: State, moves: seq<Move>): State
    decreases |moves|
  {
    if moves == [] then s
    else Step(r, strict, Run(r, strict, s, moves[..|moves| - 1]), moves[|moves| - 1])
  }

  /** An empty cache, and callers that have not begun; how many and for which versions is free.
      Callers killed in an earlier session, and what they left behind, are part of the run. */
  predicate Initial(s: State) {
    && s.disk.names == map[] && s.disk.nodes == []
    && forall i :: 0 <= i < |s.callers| ==> s.callers[i] == Start(s.callers[i].version)
  }

  // ----- The invariant ---------------------------------------------------------------------

  /** The caller's archive was accepted, and `binary` is what was extracted from it. */
  predicate Verified(r: Release, c: Caller) {
    && r.verdict(c.version, c.archive, c.sums).None?
    && r.extract(c.archive) == Ok(c.binary)
  }

  /** What one caller has established about its own download. */
  predicate LocalsOk(r: Release, c: Caller) {
    && c.written <= |c.binary|
    && (c.stranded ==> c.pc == Raised && !c.renamed)
    && match c.pc
       case CheckCache | FetchArchive | FetchSums | Verify =>
         c.written == 0 && !c.renamed && c.failure.None?
       case Extract =>
         c.written == 0 && !c.renamed && c.failure.None? && r.verdict(c.version, c.archive, c.sums).None?
       case MakeDir | MakeTemp =>
         c.written == 0 && !c.renamed && c.failure.None? && Verified(r, c)
       case Write =>
         !c.renamed && c.failure.None? && Verified(r, c)
       case Chmod | Rename =>
         !c.renamed && c.failure.None? && Verified(r, c) && c.written == |c.binary|
       case Unlink =>
         (c.failure.None? <==> c.renamed) && Verified(r, c) && (c.renamed ==> c.written == |c.binary|)
       case Returned =>
         c.failure.None? && (c.renamed ==> Verified(r, c) && c.written == |c.binary|)
       case Raised =>
         c.failure.Some? && (c.renamed ==> Verified(r, c) && c.written == |c.binary|)
  }

  /** What it can rely on about the disk. */
  ghost predicate DiskOk(d: Disk, c: Caller) {
    && (Rank(MakeTemp) <= Rank(c.pc) <= Rank(Unlink) ==> c.version in d.dirs)
    && (c.pc == Returned || c.renamed ==> Target(c.version) in d.names)
    && (Rank(Write) <= Rank(c.pc) <= Rank(Unlink) || Holding(c) ==> c.temp.Temp? && c.temp.version == c.version)
    && (Holding(c) ==>
          && c.node < |d.nodes| && c.written <= |c.binary|
          && c.temp in d.names && d.names[c.temp] == c.node
          && d.nodes[c.node].data == c.binary[..c.written])
    && (c.pc == Write || c.pc == Chmod ==> d.nodes[c.node].mode == CREATED)
    && (c.pc == Rename ==> d.nodes[c.node].mode == CREATED + EXECUTABLE)
    && (Pending(c) ==> c.temp !in d.names)
  }

  ghost predicate CallerOk(r: Release, d: Disk, c: Caller) {
    LocalsOk(r, c) && DiskOk(d, c)
  }

  /** No two callers share a temp name or an inode. */
  ghost predicate Separate(c: Caller, e: Caller) {
    Holding(c) && Holding(e) ==> c.node != e.node && c.temp != e.temp
  }

  /** The caller put these bytes there. */
  ghost predicate Installed(c: Caller, version: string, data: Bytes) {
    c.renamed && c.version == version && c.binary == data
  }

  /** The installed file is whole, has its mode, and some caller's verified extraction; nobody is
      still writing to it. */
  ghost predicate TargetOk(s: State, version: string) {
    Target(version) in s.disk.names ==>
      && s.disk.Has(Target(version))
      && s.disk.At(Target(version)).mode == CREATED + EXECUTABLE
      && (exists i :: 0 <= i < |s.callers| && Installed(s.callers[i], version, s.disk.At(Target(version)).data))
      && (forall i :: 0 <= i < |s.callers| && Holding(s.callers[i]) ==>
            s.callers[i].node != s.disk.names[Target(version)])
  }

  ghost predicate TempOwned(s: State, p: Path) {
    p.Temp? && p in s.disk.names ==>
      exists i :: 0 <= i < |s.callers| && Holding(s.callers[i]) && s.callers[i].temp == p
  }

  ghost predicate Inv(r: Release, s: State) {
    && InBounds(s.disk)
    && (forall i :: 0 <= i < |s.callers| ==> CallerOk(r, s.disk, s.callers[i]))
    && (forall i, j :: 0 <= i < j < |s.callers| ==> Separate(s.callers[i], s.callers[j]))
    && (forall v :: TargetOk(s, v))
    && (forall p :: TempOwned(s, p))
  }

  // ----- Every step keeps it ---------------------------------------------------------------

  ghost predicate InBounds(d: Disk) {
    forall p :: p in d.names ==> d.names[p] < |d.nodes|
  }

  /** What a step of one caller must leave alone for another caller's facts to survive. */
  ghost predicate Undisturbed(d: Disk, d': Disk, c: Caller) {
    && d.dirs <= d'.dirs
    && (Target(c.version) in d.names ==> Target(c.version) in d'.names)
    && (Holding(c) && c.temp in d.names && c.node < |d.nodes| ==>
          && c.node < |d'.nodes|
          && c.temp in d'.names && d'.names[c.temp] == d.names[c.temp]
          && d'.nodes[c.node] == d.nodes[c.node])
    && (Pending(c) && c.temp !in d.names ==> c.temp !in d'.names)
  }

  /** The path is the caller's temp name, which it may still rename or unlink. */
  predicate Uses(c: Caller, p: Path) {
    Rank(Write) <= Rank(c.pc) <= Rank(Unlink) && p == c.temp
  }

  predicate Installs(c: Caller, c': Caller) {
    c'.renamed && !c.renamed
  }

  /** What any step does to its caller and to the disk, with the program counter abstracted
      away: names appear only through `mkstemp` and `rename`, data only through the caller's own
      inode, and everything else stays. */
  ghost predicate Effect(c: Caller, d: Disk, c': Caller, d': Disk, act: Act) {
    && c'.version == c.version
    && d.dirs <= d'.dirs && |d.nodes| <= |d'.nodes|
    && (forall n :: 0 <= n < |d.nodes| && !(Holding(c) && n == c.node) ==> d'.nodes[n] == d.nodes[n])
    && (forall p :: p in d.names && !Uses(c, p) && !(p == Target(c.version) && Installs(c, c')) ==>
          p in d'.names && d'.names[p] == d.names[p])
    && (Target(c.version) in d.names ==> Target(c.version) in d'.names)
    && (forall p :: p in d'.names && p !in d.names ==>
          (p == Target(c.version) && Installs(c, c')) || (act.Name? && Holding(c') && p == c'.temp))
    && (Holding(c') ==>
          if Holding(c) then c'.node == c.node && c'.temp == c.temp
          else act.Name? && c'.node == |d.nodes| && c'.temp == Temp(c.version, act.name))
    && (Holding(c) && !Holding(c') ==> c.temp !in d'.names)
    && (c.renamed ==> c'.renamed && c'.binary == c.binary && c'.archive == c.archive && c'.sums == c.sums)
    && (Installs(c, c') ==>
          && Holding(c) && !Holding(c') && c.node < |d.nodes| && d'.nodes == d.nodes
          && d.nodes[c.node] == File(c'.binary, d.nodes[c.node].mode)
          && d.nodes[c.node].mode == CREATED + EXECUTABLE
          && Target(c.version) in d'.names && d'.names[Target(c.version)] == c.node)
  }

  /** The whole of what one step owes: its effect, and its own caller's facts afterwards. */
  ghost predicate Sound(r: Release, c: Caller, d: Disk, act: Act) {
    var (c', d') := Advance(r, c, d, act);
    Effect(c, d, c', d', act) && DiskOk(d', c') && InBounds(d')
  }

  lemma EffectOfCrash(r: Release, d: Disk, c: Caller)
    requires InBounds(d) && CallerOk(r, d, c)
    ensures Sound(r, c, d, Crash)
  {
  }

  /** Before its temp file exists a caller changes nothing but its locals and, once, the set of
      directories. */
  lemma QuietEffect(c: Caller, d: Disk, c': Caller, d': Disk, act: Act)
    requires InBounds(d) && Rank(c.pc) < Rank(MakeTemp) && !c.renamed
    requires c'.version == c.version && !c'.renamed && !c.stranded && !c'.stranded
    requires Rank(c'.pc) <= Rank(MakeTemp) || Finished(c')
    requires c'.pc == MakeTemp ==> c'.version in d'.dirs
    requires c'.pc == Returned ==> Target(c'.version) in d'.names
    requires d.dirs <= d'.dirs && d'.names == d.names && d'.nodes == d.nodes
    ensures Effect(c, d, c', d', act) && DiskOk(d', c') && InBounds(d')
  {
  }

  lemma DownloadIsQuiet(r: Release, d: Disk, c: Caller, act: Act)
    requires LocalsOk(r, c) && Fits(r, c, act) && act != Crash
    requires Rank(c.pc) < Rank(MakeTemp)
    ensures var (c', d') := Advance(r, c, d, act);
      && c'.version == c.version && !c'.renamed && !c.stranded && !c'.stranded
      && (Rank(c'.pc) <= Rank(MakeTemp) || Finished(c'))
      && (c'.pc == MakeTemp ==> c'.version in d'.dirs)
      && (c'.pc == Returned ==> Target(c'.version) in d'.names)
      && d.dirs <= d'.dirs && d'.names == d.names && d'.nodes == d.nodes
  {
    match c.pc {
      case CheckCache =>
      case FetchArchive =>
      case FetchSums =>
      case Verify =>
      case Extract =>
      case MakeDir =>
    }
  }

  lemma EffectOfDownload(r: Release, d: Disk, c: Caller, act: Act)
    requires InBounds(d) && CallerOk(r, d, c) && Fits(r, c, act) && act != Crash
    requires Rank(c.pc) < Rank(MakeTemp)
    ensures Sound(r, c, d, act)
  {
    var (c', d') := Advance(r, c, d, act);
    DownloadIsQuiet(r, d, c, act);
    QuietEffect(c, d, c', d', act);
  }

  lemma EffectOfMakeTemp(r: Release, d: Disk, c: Caller, act: Act)
    requires InBounds(d) && CallerOk(r, d, c) && Fits(r, c, act) && c.pc == MakeTemp && act != Crash
    requires act.Name? ==> c.version in d.dirs && Temp(c.version, act.name) !in d.names
    ensures Sound(r, c, d, act)
  {
  }

  lemma EffectOfWrite(r: Release, d: Disk, c: Caller, act: Act)
    requires InBounds(d) && CallerOk(r, d, c) && Fits(r, c, act) && c.pc == Write && act != Crash
    ensures Sound(r, c, d, act)
  {
    if act.Chunk? {
      assert c.binary[..c.written] + c.binary[c.written..c.written + act.size] == c.binary[..c.written + act.size];
    }
  }

  lemma EffectOfChmod(r: Release, d: Disk, c: Caller, act: Act)
    requires InBounds(d) && CallerOk(r, d, c) && Fits(r, c, act) && c.pc == Chmod && act != Crash
    ensures Sound(r, c, d, act)
  {
  }

  lemma EffectOfRename(r: Release, d: Disk, c: Caller, act: Act)
    requires InBounds(d) && CallerOk(r, d, c) && Fits(r, c, act) && c.pc == Rename && act != Crash
    ensures Sound(r, c, d, act)
  {
  }

  lemma EffectOfUnlink(r: Release, d: Disk, c: Caller, act: Act)
    requires InBounds(d) && CallerOk(r, d, c) && Fits(r, c, act) && c.pc == Unlink && act != Crash
    ensures Sound(r, c, d, act)
  {
    if act == Fail {
      EffectOfFailedUnlink(r, d, c);
    } else {
      EffectOfGoodUnlink(r, d, c);
    }
  }

  lemma EffectOfFailedUnlink(r: Release, d: Disk, c: Caller)
    requires InBounds(d) && CallerOk(r, d, c) && c.pc == Unlink
    ensures Sound(r, c, d, Fail)
  {
  }

  lemma EffectOfGoodUnlink(r: Release, d: Disk, c: Caller)
    requires InBounds(d) && CallerOk(r, d, c) && c.pc == Unlink
    ensures Sound(r, c, d, Go)
  {
  }

  lemma EffectOfStep(r: Release, d: Disk, c: Caller, act: Act)
    requires InBounds(d) && CallerOk(r, d, c) && Fits(r, c, act) && !Finished(c)
    requires act.Name? ==> c.version in d.dirs && Temp(c.version, act.name) !in d.names
    ensures Sound(r, c, d, act)
  {
    if act == Crash {
      EffectOfCrash(r, d, c);
    } else {
      EffectOfWork(r, d, c, act);
    }
  }

  lemma EffectOfWork(r: Release, d: Disk, c: Caller, act: Act)
    requires InBounds(d) && CallerOk(r, d, c) && Fits(r, c, act) && !Finished(c) && act != Crash
    requires act.Name? ==> c.version in d.dirs && Temp(c.version, act.name) !in d.names
    ensures Sound(r, c, d, act)
  {
    match c.pc {
      case MakeTemp => EffectOfMakeTemp(r, d, c, act);
      case Write => EffectOfWrite(r, d, c, act);
      case Chmod => EffectOfChmod(r, d, c, act);
      case Rename => EffectOfRename(r, d, c, act);
      case Unlink => EffectOfUnlink(r, d, c, act);
      case _ => EffectOfDownload(r, d, c, act);
    }
  }

  /** Two callers that share nothing do not disturb each other. */
  lemma OtherUndisturbed(d: Disk, c: Caller, d': Disk, c': Caller, act: Act, e: Caller)
    requires DiskOk(d, c) && DiskOk(d, e) && Separate(c, e)
    requires !c.crashed && Effect(c, d, c', d', act)
    requires act.Name? && Holding(c') ==> c'.temp !in d.names && (Pending(e) ==> c'.temp != e.temp)
    ensures Undisturbed(d, d', e) && Separate(c', e)
  {
  }

  lemma UndisturbedOk(r: Release, d: Disk, d': Disk, e: Caller)
    requires CallerOk(r, d, e) && Undisturbed(d, d', e)
    ensures CallerOk(r, d', e)
  {
  }

  lemma MoverLocals(r: Release, d: Disk, c: Caller, act: Act)
    requires LocalsOk(r, c) && Fits(r, c, act)
    ensures LocalsOk(r, Advance(r, c, d, act).0)
  {
    if act != Crash {
      if Rank(c.pc) < Rank(MakeTemp) {
        DownloadLocals(r, d, c, act);
      } else {
        InstallLocals(r, d, c, act);
      }
    }
  }

  lemma DownloadLocals(r: Release, d: Disk, c: Caller, act: Act)
    requires LocalsOk(r, c) && Fits(r, c, act) && act != Crash && Rank(c.pc) < Rank(MakeTemp)
    ensures LocalsOk(r, Advance(r, c, d, act).0)
  {
    match c.pc {
      case CheckCache =>
      case FetchArchive =>
      case FetchSums =>
      case Verify =>
      case Extract =>
      case MakeDir =>
    }
  }

  lemma InstallLocals(r: Release, d: Disk, c: Caller, act: Act)
    requires LocalsOk(r, c) && Fits(r, c, act) && act != Crash && Rank(MakeTemp) <= Rank(c.pc)
    ensures LocalsOk(r, Advance(r, c, d, act).0)
  {
    match c.pc {
      case MakeTemp =>
      case Write =>
      case Chmod =>
      case Rename =>
      case Unlink =>
      case Returned =>
      case Raised =>
    }
  }

  lemma SeparateBoth(s: State, i: nat, j: nat)
    requires i < |s.callers| && j < |s.callers| && i != j
    requires forall i, j :: 0 <= i < j < |s.callers| ==> Separate(s.callers[i], s.callers[j])
    ensures Separate(s.callers[i], s.callers[j])
  {
    assert Separate(s.callers[if i < j then i else j], s.callers[if i < j then j else i]);
  }

  lemma TempKept(s: State, s': State, who: nat, act: Act, p: Path)
    requires who < |s.callers| && TempOwned(s, p)
    requires |s'.callers| == |s.callers| && s'.callers == s.callers[who := s'.callers[who]]
    requires Effect(s.callers[who], s.disk, s'.callers[who], s'.disk, act)
    ensures TempOwned(s', p)
  {
    if p.Temp? && p in s'.disk.names {
      if p !in s.disk.names {
        assert Holding(s'.callers[who]) && s'.callers[who].temp == p;
      } else {
        var i :| 0 <= i < |s.callers| && Holding(s.callers[i]) && s.callers[i].temp == p;
        assert Holding(s'.callers[i]) && s'.callers[i].temp == p;
      }
    }
  }

  lemma TargetKept(s: State, s': State, who: nat, act: Act, v: string)
    requires who < |s.callers| && TargetOk(s, v) && InBounds(s.disk) && DiskOk(s.disk, s.callers[who])
    requires forall i, j :: 0 <= i < j < |s.callers| ==> Separate(s.callers[i], s.callers[j])
    requires |s'.callers| == |s.callers| && s'.callers == s.callers[who := s'.callers[who]]
    requires Effect(s.callers[who], s.disk, s'.callers[who], s'.disk, act)
    ensures TargetOk(s', v)
  {
    var c, c' := s.callers[who], s'.callers[who];
    if Target(v) in s'.disk.names {
      if Installs(c, c') && c.version == v {
        assert Installed(s'.callers[who], v, s'.disk.At(Target(v)).data);
        forall i | 0 <= i < |s.callers| && Holding(s'.callers[i])
          ensures s'.callers[i].node != s'.disk.names[Target(v)]
        {
          if i != who { SeparateBoth(s, i, who); }
        }
      } else {
        var i :| 0 <= i < |s.callers| && Installed(s.callers[i], v, s.disk.At(Target(v)).data);
        assert Installed(s'.callers[i], v, s'.disk.At(Target(v)).data);
      }
    }
  }

  lemma StepKeepsInv(r: Release, s: State, m: Move)
    requires Inv(r, s)
    ensures Inv(r, Step(r, true, s, m))
  {
    if Enabled(r, true, s, m) {
      var s' := Step(r, true, s, m);
      var c := s.callers[m.who];
      assert CallerOk(r, s.disk, c);
      EffectOfStep(r, s.disk, c, m.act);
      MoverLocals(r, s.disk, c, m.act);
      InvFromEffect(r, s, s', m);
    }
  }

  lemma InvFromEffect(r: Release, s: State, s': State, m: Move)
    requires Inv(r, s) && m.who < |s.callers| && !s.callers[m.who].crashed
    requires |s'.callers| == |s.callers| && s'.callers == s.callers[m.who := s'.callers[m.who]]
    requires Effect(s.callers[m.who], s.disk, s'.callers[m.who], s'.disk, m.act)
    requires m.act.Name? && Holding(s'.callers[m.who]) ==> !Holding(s.callers[m.who]) && NameFree(true, s, s'.callers[m.who].temp)
    requires InBounds(s'.disk) && CallerOk(r, s'.disk, s'.callers[m.who])
    ensures Inv(r, s')
  {
    var c := s.callers[m.who];
    assert CallerOk(r, s.disk, c);
    forall i | 0 <= i < |s.callers| && i != m.who
      ensures CallerOk(r, s'.disk, s.callers[i]) && Separate(s'.callers[m.who], s.callers[i])
    {
      var e := s.callers[i];
      assert CallerOk(r, s.disk, e);
      SeparateBoth(s, m.who, i);
      OtherUndisturbed(s.disk, c, s'.disk, s'.callers[m.who], m.act, e);
      UndisturbedOk(r, s.disk, s'.disk, e);
    }
    forall i, j | 0 <= i < j < |s'.callers| ensures Separate(s'.callers[i], s'.callers[j]) {
      if i != m.who && j != m.who {
        assert Separate(s.callers[i], s.callers[j]);
      }
    }
    forall v ensures TargetOk(s', v) {
      assert TargetOk(s, v);
      TargetKept(s, s', m.who, m.act, v);
    }
    forall p ensures TempOwned(s', p) {
      assert TempOwned(s, p);
      TempKept(s, s', m.who, m.act, p);
    }
  }

  lemma {:induction false} RunKeepsInv(r: Release, s: State, moves: seq<Move>)
    requires Inv(r, s)
    ensures Inv(r, Run(r, true, s, moves))
    decreases |moves|
  {
    if moves != [] {
      RunKeepsInv(r, s, moves[..|moves| - 1]);
      StepKeepsInv(r, Run(r, true, s, moves[..|moves| - 1]), moves[|moves| - 1]);
    }
  }

  lemma InitialInv(r: Release, s: State)
    requires Initial(s)
    ensures Inv(r, s)
  {
  }
}
