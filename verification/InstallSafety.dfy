/** What the install protocol guarantees over whole runs: any number of callers, any
    interleaving, failures and kills at every step. */
module InstallSafety {
  import opened Prelude
  import opened Provision
  import opened Install

  /** The protocol's view of the real checksum and extraction code. */
  function ReleaseOf(h: Host): Release {
    Release(
      h.platform.Some?,
      (version: string, archive: Bytes, sums: Bytes) =>
        if h.platform.None? then Some(UNSUPPORTED_PLATFORM)
        else ChecksumVerdict(h, archive, sums, ArchiveName(h.platform.value, h.windows, version)),
      (archive: Bytes) => Extraction(h, archive))
  }

  // ----- Safety ----------------------------------------------------------------------------

  /** These bytes are the extraction of an archive that a caller which installed this version
      downloaded for it, and that the checksums it downloaded with it vouch for under its own name. */
  ghost predicate VerifiedBytes(h: Host, s: State, version: string, data: Bytes) {
    exists i :: 0 <= i < |s.callers|
      && s.callers[i].version == version && s.callers[i].renamed
      && Accepts(h, version, s.callers[i].archive, s.callers[i].sums)
      && Extraction(h, s.callers[i].archive) == Ok(data)
  }

  /** The binary is there: readable and writable by its owner as `mkstemp` made it, executable by
      owner, group and others, and holding verified bytes. */
  ghost predicate GoodBinary(h: Host, s: State, version: string) {
    && s.disk.Has(Target(version))
    && s.disk.At(Target(version)).mode == {OwnerRead, OwnerWrite, OwnerExec, GroupExec, OtherExec}
    && VerifiedBytes(h, s, version, s.disk.At(Target(version)).data)
  }

  lemma InvGivesGoodBinary(h: Host, s: State, version: string)
    requires Inv(ReleaseOf(h), s)
    ensures Target(version) in s.disk.names ==> GoodBinary(h, s, version)
  {
    if Target(version) in s.disk.names {
      assert TargetOk(s, version);
      var data := s.disk.At(Target(version)).data;
      var i :| 0 <= i < |s.callers| && Installed(s.callers[i], version, data);
      assert LocalsOk(ReleaseOf(h), s.callers[i]) by { assert CallerOk(ReleaseOf(h), s.disk, s.callers[i]); }
      assert Verified(ReleaseOf(h), s.callers[i]);
      var c := s.callers[i];
      ChecksumMeaning(h, c.archive, c.sums, ArchiveName(h.platform.value, h.windows, version));
    }
  }

  /** The final path is either absent or holds, in full and executable, the extraction of a
      verified archive. */
  lemma CacheIsAlwaysGood(h: Host, s: State, moves: seq<Move>, version: string)
    requires Initial(s)
    ensures var end := Run(ReleaseOf(h), true, s, moves);
      Target(version) in end.disk.names ==> GoodBinary(h, end, version)
  {
    InitialInv(ReleaseOf(h), s);
    RunKeepsInv(ReleaseOf(h), s, moves);
    InvGivesGoodBinary(h, Run(ReleaseOf(h), true, s, moves), version);
  }

  /** Whoever returns, by a cache hit or by installing, returns a path that is good then and stays good. */
  lemma {:induction false} ReturnedPathIsGood(h: Host, s: State, before: seq<Move>, after: seq<Move>, i: nat)
    requires Initial(s) && i < |s.callers|
    requires var mid := Run(ReleaseOf(h), true, s, before);
      i < |mid.callers| && mid.callers[i].pc == Returned
    ensures GoodBinary(h, Run(ReleaseOf(h), true, Run(ReleaseOf(h), true, s, before), after), s.callers[i].version)
  {
    var r := ReleaseOf(h);
    var mid := Run(r, true, s, before);
    InitialInv(r, s);
    RunKeepsInv(r, s, before);
    RunKeepsInv(r, mid, after);
    assert CallerOk(r, mid.disk, mid.callers[i]);
    RunKeepsCaller(r, true, s, before, i);
    TargetStays(r, mid, after, s.callers[i].version);
    InvGivesGoodBinary(h, Run(r, true, mid, after), s.callers[i].version);
  }

  lemma {:induction false} RunKeepsCaller(r: Release, strict: bool, s: State, moves: seq<Move>, i: nat)
    requires i < |s.callers|
    ensures |Run(r, strict, s, moves).callers| == |s.callers|
    ensures Run(r, strict, s, moves).callers[i].version == s.callers[i].version
    decreases |moves|
  {
    if moves != [] {
      RunKeepsCaller(r, strict, s, moves[..|moves| - 1], i);
    }
  }

  // ----- Convergence -----------------------------------------------------------------------

  lemma StepEffect(r: Release, s: State, m: Move)
    requires Inv(r, s) && Enabled(r, true, s, m)
    ensures var s' := Step(r, true, s, m);
      Effect(s.callers[m.who], s.disk, s'.callers[m.who], s'.disk, m.act)
  {
    assert CallerOk(r, s.disk, s.callers[m.who]);
    EffectOfStep(r, s.disk, s.callers[m.who], m.act);
  }

  lemma TargetStaysOnce(r: Release, s: State, m: Move, version: string)
    requires Inv(r, s) && Target(version) in s.disk.names
    ensures Target(version) in Step(r, true, s, m).disk.names
  {
    if Enabled(r, true, s, m) {
      StepEffect(r, s, m);
      assert CallerOk(r, s.disk, s.callers[m.who]);
    }
  }

  /** An installed target never disappears. */
  lemma {:induction false} TargetStays(r: Release, s: State, moves: seq<Move>, version: string)
    requires Inv(r, s) && Target(version) in s.disk.names
    ensures Target(version) in Run(r, true, s, moves).disk.names
    decreases |moves|
  {
    if moves != [] {
      TargetStays(r, s, moves[..|moves| - 1], version);
      RunKeepsInv(r, s, moves[..|moves| - 1]);
      TargetStaysOnce(r, Run(r, true, s, moves[..|moves| - 1]), moves[|moves| - 1], version);
    }
  }

  /** A call that begins once the target exists never reaches the network: it does nothing but
      look and return. */
  lemma {:induction false} LaterCallsDownloadNothing(r: Release, s: State, moves: seq<Move>, i: nat)
    requires Inv(r, s) && i < |s.callers| && s.callers[i] == Start(s.callers[i].version)
    requires Target(s.callers[i].version) in s.disk.names
    ensures var end := Run(r, true, s, moves);
      && i < |end.callers|
      && end.callers[i].downloads == 0
      && (end.callers[i].pc == CheckCache || end.callers[i].pc == Returned)
    decreases |moves|
  {
    if moves != [] {
      var rest := moves[..|moves| - 1];
      LaterCallsDownloadNothing(r, s, rest, i);
      TargetStays(r, s, rest, s.callers[i].version);
      RunKeepsCaller(r, true, s, rest, i);
    }
  }

  /** The release is settled for this version: its checksums admit one archive only. */
  ghost predicate Pins(r: Release, version: string, sums: Bytes) {
    forall a, b :: r.verdict(version, a, sums).None? && r.verdict(version, b, sums).None? ==> a == b
  }

  ghost predicate Injective(f: Bytes -> string) {
    forall a, b :: f(a) == f(b) ==> a == b
  }

  lemma InjectiveDigestPins(h: Host, version: string, sums: Bytes)
    requires Injective(h.digest)
    ensures Pins(ReleaseOf(h), version, sums)
  {
    var r := ReleaseOf(h);
    forall a, b | r.verdict(version, a, sums).None? && r.verdict(version, b, sums).None?
      ensures a == b
    {
      assert h.digest(a) == h.digest(b);
    }
  }

  lemma InstallersStayOnce(r: Release, s: State, m: Move, i: nat)
    requires Inv(r, s) && i < |s.callers| && s.callers[i].renamed
    ensures var s' := Step(r, true, s, m);
      && i < |s'.callers| && s'.callers[i].renamed
      && s'.callers[i].version == s.callers[i].version && s'.callers[i].binary == s.callers[i].binary
  {
    if Enabled(r, true, s, m) {
      StepEffect(r, s, m);
    }
  }

  lemma {:induction false} InstallersStay(r: Release, s: State, moves: seq<Move>, i: nat)
    requires Inv(r, s) && i < |s.callers| && s.callers[i].renamed
    ensures var end := Run(r, true, s, moves);
      && i < |end.callers| && end.callers[i].renamed
      && end.callers[i].version == s.callers[i].version && end.callers[i].binary == s.callers[i].binary
    decreases |moves|
  {
    if moves != [] {
      InstallersStay(r, s, moves[..|moves| - 1], i);
      RunKeepsInv(r, s, moves[..|moves| - 1]);
      InstallersStayOnce(r, Run(r, true, s, moves[..|moves| - 1]), moves[|moves| - 1], i);
    }
  }

  /** Once installed, the bytes never change again, provided every installer of the version was
      served the same checksums and those pin the archive; however many callers race. */
  lemma BytesNeverChange(r: Release, s: State, moves: seq<Move>, version: string, sums: Bytes)
    requires Inv(r, s) && Target(version) in s.disk.names && Pins(r, version, sums)
    requires var end := Run(r, true, s, moves);
      forall i :: 0 <= i < |end.callers| && end.callers[i].renamed && end.callers[i].version == version
              ==> end.callers[i].sums == sums
    ensures var end := Run(r, true, s, moves);
      && s.disk.Has(Target(version)) && end.disk.Has(Target(version))
      && end.disk.At(Target(version)).data == s.disk.At(Target(version)).data
  {
    var end := Run(r, true, s, moves);
    TargetStays(r, s, moves, version);
    RunKeepsInv(r, s, moves);
    assert TargetOk(s, version) && TargetOk(end, version);
    var i :| 0 <= i < |s.callers| && Installed(s.callers[i], version, s.disk.At(Target(version)).data);
    var j :| 0 <= j < |end.callers| && Installed(end.callers[j], version, end.disk.At(Target(version)).data);
    InstallersStay(r, s, moves, i);
    assert CallerOk(r, end.disk, end.callers[i]) && CallerOk(r, end.disk, end.callers[j]);
    assert Verified(r, end.callers[i]) && Verified(r, end.callers[j]);
    assert end.callers[i].archive == end.callers[j].archive;
  }

  /** The same from the start: a later call for an installed version makes no download, and with
      a collision-free digest and settled checksums the installed bytes are final. */
  lemma ProvisioningConverges(h: Host, s: State, before: seq<Move>, after: seq<Move>, version: string, sums: Bytes)
    requires Initial(s) && Injective(h.digest)
    requires Target(version) in Run(ReleaseOf(h), true, s, before).disk.names
    requires var end := Run(ReleaseOf(h), true, Run(ReleaseOf(h), true, s, before), after);
      forall i :: 0 <= i < |end.callers| && end.callers[i].renamed && end.callers[i].version == version
              ==> end.callers[i].sums == sums
    ensures var mid := Run(ReleaseOf(h), true, s, before);
      var end := Run(ReleaseOf(h), true, mid, after);
      && mid.disk.Has(Target(version)) && end.disk.Has(Target(version))
      && end.disk.At(Target(version)).data == mid.disk.At(Target(version)).data
      && |end.callers| == |mid.callers|
      && forall i :: 0 <= i < |mid.callers| && mid.callers[i] == Start(version) ==> end.callers[i].downloads == 0
  {
    var r := ReleaseOf(h);
    var mid := Run(r, true, s, before);
    InitialInv(r, s);
    RunKeepsInv(r, s, before);
    InjectiveDigestPins(h, version, sums);
    BytesNeverChange(r, mid, after, version, sums);
    assert |Run(r, true, mid, after).callers| == |mid.callers| by {
      RunKeepsCount(r, true, mid, after);
    }
    forall i | 0 <= i < |mid.callers| && mid.callers[i] == Start(version)
      ensures Run(r, true, mid, after).callers[i].downloads == 0
    {
      LaterCallsDownloadNothing(r, mid, after, i);
    }
  }

  lemma {:induction false} RunKeepsCount(r: Release, strict: bool, s: State, moves: seq<Move>)
    ensures |Run(r, strict, s, moves).callers| == |s.callers|
    decreases |moves|
  {
    if moves != [] {
      RunKeepsCount(r, strict, s, moves[..|moves| - 1]);
    }
  }

  // ----- Temp files ------------------------------------------------------------------------

  /** The temp files present are exactly those of callers between `mkstemp` and `rename` or
      `unlink`, dead or alive, and of callers whose unlink failed. */
  lemma TempFilesAreOwned(r: Release, s: State, moves: seq<Move>, p: Path)
    requires Initial(s) && p.Temp?
    ensures var end := Run(r, true, s, moves);
      (p in end.disk.names)
        <==> (exists i :: 0 <= i < |end.callers| && Holding(end.callers[i]) && end.callers[i].temp == p)
  {
    var end := Run(r, true, s, moves);
    InitialInv(r, s);
    RunKeepsInv(r, s, moves);
    assert TempOwned(end, p);
    if i :| 0 <= i < |end.callers| && Holding(end.callers[i]) && end.callers[i].temp == p {
      assert CallerOk(r, end.disk, end.callers[i]);
    }
  }

  /** When every caller has returned or raised, the temp files in the cache are exactly those of
      callers that failed before their rename and whose unlink failed too. */
  lemma NothingLeftBehind(r: Release, s: State, moves: seq<Move>, p: Path)
    requires Initial(s) && p.Temp?
    requires var end := Run(r, true, s, moves);
      forall i :: 0 <= i < |end.callers| ==> Finished(end.callers[i])
    ensures var end := Run(r, true, s, moves);
      (p in end.disk.names)
        <==> (exists i :: 0 <= i < |end.callers| && end.callers[i].stranded && end.callers[i].temp == p)
  {
    TempFilesAreOwned(r, s, moves, p);
    var end := Run(r, true, s, moves);
    forall i | 0 <= i < |end.callers| ensures Holding(end.callers[i]) <==> end.callers[i].stranded {
      assert Finished(end.callers[i]);
    }
  }

  /** One caller's step leaves every other caller's locals and temp file exactly as they were. */
  lemma OthersTempsUntouched(r: Release, s: State, m: Move, j: nat)
    requires Inv(r, s) && m.who < |s.callers| && j < |s.callers| && j != m.who
    ensures var s' := Step(r, true, s, m);
      && s'.callers[j] == s.callers[j]
      && (Holding(s.callers[j]) ==>
            var p := s.callers[j].temp; s.disk.Has(p) && s'.disk.Has(p) && s'.disk.At(p) == s.disk.At(p))
  {
    var c, e := s.callers[m.who], s.callers[j];
    assert CallerOk(r, s.disk, e) && CallerOk(r, s.disk, c);
    if Enabled(r, true, s, m) {
      var s' := Step(r, true, s, m);
      StepEffect(r, s, m);
      SeparateBoth(s, m.who, j);
      assert m.act.Name? && Holding(s'.callers[m.who]) ==> NameFree(true, s, s'.callers[m.who].temp);
      OtherUndisturbed(s.disk, c, s'.disk, s'.callers[m.who], m.act, e);
    }
  }

  /** Nor does it touch what is installed for another version. */
  lemma OtherVersionsUntouched(r: Release, s: State, m: Move, version: string)
    requires Inv(r, s) && m.who < |s.callers| && version != s.callers[m.who].version
    ensures var d, d' := s.disk, Step(r, true, s, m).disk;
      && (d.Has(Target(version)) <==> d'.Has(Target(version)))
      && (d.Has(Target(version)) ==> d'.At(Target(version)) == d.At(Target(version)))
  {
    if Enabled(r, true, s, m) {
      StepEffect(r, s, m);
      var c := s.callers[m.who];
      assert CallerOk(r, s.disk, c) && TargetOk(s, version);
      var s' := Step(r, true, s, m);
      var t := Target(version);
      assert !Uses(c, t);
      assert Holding(s'.callers[m.who]) && m.act.Name? ==> s'.callers[m.who].temp.Temp?;
    }
  }

  // ----- Wait-freedom ----------------------------------------------------------------------

  /** How much of its work a caller has behind it. */
  function Progress(c: Caller): nat {
    Rank(c.pc) + c.written + if c.crashed then 1 else 0
  }

  /** The steps `who` really took in a run. */
  function OwnSteps(r: Release, s: State, moves: seq<Move>, who: nat): nat
    decreases |moves|
  {
    if moves == [] then 0
    else
      var rest := moves[..|moves| - 1];
      var last := moves[|moves| - 1];
      OwnSteps(r, s, rest, who) + if last.who == who && Enabled(r, true, Run(r, true, s, rest), last) then 1 else 0
  }

  /** Progress rises with every step of one's own and is untouched by everyone else's. */
  lemma StepMakesProgress(r: Release, s: State, m: Move, who: nat)
    requires Inv(r, s) && who < |s.callers|
    ensures var before, after := Progress(s.callers[who]), Progress(Step(r, true, s, m).callers[who]);
      if m.who == who && Enabled(r, true, s, m) then before < after else before == after
  {
    if m.who == who && Enabled(r, true, s, m) {
      match s.callers[who].pc {
        case Write =>
        case Verify =>
        case Extract =>
        case _ =>
      }
    }
  }

  lemma CrashedIsUnfinished(r: Release, s: State, m: Move, who: nat)
    requires who < |s.callers| && (s.callers[who].crashed ==> !Finished(s.callers[who]))
    ensures var c := Step(r, true, s, m).callers[who]; c.crashed ==> !Finished(c)
  {
    if m.who == who && Enabled(r, true, s, m) && m.act != Crash {
      match s.callers[who].pc {
        case Write =>
        case _ =>
      }
    }
  }

  /** Wait-freedom: whatever the others do, a caller takes at most eleven steps, plus one for
      each byte of the binary it installs, before it has returned, raised or died. */
  lemma {:induction false} WaitFree(r: Release, s: State, moves: seq<Move>, who: nat)
    requires Initial(s) && who < |s.callers|
    ensures var end := Run(r, true, s, moves);
      && who < |end.callers|
      && OwnSteps(r, s, moves, who) <= Progress(end.callers[who])
      && (end.callers[who].crashed ==> !Finished(end.callers[who]))
      && OwnSteps(r, s, moves, who) <= 11 + |end.callers[who].binary|
    decreases |moves|
  {
    InitialInv(r, s);
    RunKeepsInv(r, s, moves);
    if moves != [] {
      var rest := moves[..|moves| - 1];
      var mid := Run(r, true, s, rest);
      WaitFree(r, s, rest, who);
      RunKeepsInv(r, s, rest);
      StepMakesProgress(r, mid, moves[|moves| - 1], who);
      CrashedIsUnfinished(r, mid, moves[|moves| - 1], who);
    }
    var end := Run(r, true, s, moves);
    assert CallerOk(r, end.disk, end.callers[who]);
  }

  /** A name longer than every temp name on the disk. */
  lemma {:induction false} LongName(paths: set<Path>) returns (name: string)
    ensures forall v :: Temp(v, name) !in paths
  {
    if paths == {} {
      name := "";
    } else {
      var n := LongestName(paths);
      name := seq(n + 1, _ => 'x');
    }
  }

  lemma {:induction false} LongestName(paths: set<Path>) returns (n: nat)
    ensures forall v, name :: Temp(v, name) in paths ==> |name| <= n
    decreases |paths|
  {
    if paths == {} {
      n := 0;
    } else {
      var p :| p in paths;
      var m := LongestName(paths - {p});
      n := if p.Temp? && |p.name| > m then |p.name| else m;
      forall v, name | Temp(v, name) in paths ensures |name| <= n {
        if Temp(v, name) != p { assert Temp(v, name) in paths - {p}; }
      }
    }
  }

  /** Lock-freedom of every step: a live caller is never stuck waiting for another. In every
      reachable state it has a step that neither fails nor kills it. */
  lemma NeverBlocked(r: Release, s: State, who: nat) returns (m: Move)
    requires Inv(r, s) && who < |s.callers| && !s.callers[who].crashed && !Finished(s.callers[who])
    ensures m.who == who && m.act != Fail && m.act != Crash && Enabled(r, true, s, m)
  {
    var c := s.callers[who];
    assert CallerOk(r, s.disk, c);
    match c.pc {
      case FetchArchive => m := Move(who, if r.supported then Deliver([]) else Go);
      case FetchSums => m := Move(who, Deliver([]));
      case MakeTemp =>
        var taken := s.disk.names.Keys + set i | 0 <= i < |s.callers| :: s.callers[i].temp;
        var name := LongName(taken);
        assert Temp(c.version, name) !in taken;
        assert forall i :: 0 <= i < |s.callers| ==> s.callers[i].temp in taken;
        m := Move(who, Name(name));
      case Write => m := Move(who, if c.written < |c.binary| then Chunk(1) else Go);
      case _ => m := Move(who, Go);
    }
  }

  // ----- The assumption about names --------------------------------------------------------

  /** The unlink after a successful rename is only harmless because nobody has taken the freed
      name: choosing a temp name keeps the invariant exactly when no live caller is still going
      to unlink that name. */
  lemma NameChoiceDecides(r: Release, s: State, m: Move)
    requires Inv(r, s) && Enabled(r, false, s, m) && m.act.Name?
    ensures Inv(r, Step(r, false, s, m))
      <==> NameFree(true, s, Temp(s.callers[m.who].version, m.act.name))
  {
    var c, p := s.callers[m.who], Temp(s.callers[m.who].version, m.act.name);
    var s' := Step(r, false, s, m);
    if NameFree(true, s, p) {
      assert Step(r, true, s, m) == s';
      StepKeepsInv(r, s, m);
    } else {
      var i :| 0 <= i < |s.callers| && Pending(s.callers[i]) && s.callers[i].temp == p;
      assert s'.callers[i] == s.callers[i] && p in s'.disk.names;
      assert !CallerOk(r, s'.disk, s'.callers[i]);
    }
  }

  /** Every caller that has a temp file finds it on the disk. */
  ghost predicate TempsPresent(s: State) {
    forall i :: 0 <= i < |s.callers| && Holding(s.callers[i]) ==> s.callers[i].temp in s.disk.names
  }

  /** What hangs on it: a caller that chose such a name may find its file gone, and one that did
      not never does, whatever everybody does from there on. */
  lemma {:induction false} NameChoiceMatters(r: Release, s: State, m: Move)
    requires Inv(r, s) && Enabled(r, false, s, m) && m.act.Name?
    ensures (forall more :: TempsPresent(Run(r, true, Step(r, false, s, m), more)))
       <==> NameFree(true, s, Temp(s.callers[m.who].version, m.act.name))
  {
    if NameFree(true, s, Temp(s.callers[m.who].version, m.act.name)) {
      forall more ensures TempsPresent(Run(r, true, Step(r, false, s, m), more)) {
        FreeNameIsSafe(r, s, m, more);
      }
    } else {
      var more := PendingNameIsNot(r, s, m);
    }
  }

  lemma FreeNameIsSafe(r: Release, s: State, m: Move, more: seq<Move>)
    requires Inv(r, s) && Enabled(r, false, s, m) && m.act.Name?
    requires NameFree(true, s, Temp(s.callers[m.who].version, m.act.name))
    ensures TempsPresent(Run(r, true, Step(r, false, s, m), more))
  {
    NameChoiceDecides(r, s, m);
    RunKeepsInv(r, Step(r, false, s, m), more);
    InvGivesTemps(r, Run(r, true, Step(r, false, s, m), more));
  }

  lemma PendingNameIsNot(r: Release, s: State, m: Move) returns (more: seq<Move>)
    requires Inv(r, s) && Enabled(r, false, s, m) && m.act.Name?
    requires !NameFree(true, s, Temp(s.callers[m.who].version, m.act.name))
    ensures !TempsPresent(Run(r, true, Step(r, false, s, m), more))
  {
    var s' := Step(r, false, s, m);
    var i :| 0 <= i < |s.callers| && Pending(s.callers[i])
          && s.callers[i].temp == Temp(s.callers[m.who].version, m.act.name);
    more := [Move(i, Go)];
    RunOne(r, s', Move(i, Go));
    UnlinkTakesAll(r, s', i, m.who);
  }

  lemma RunOne(r: Release, s: State, m: Move)
    ensures Run(r, true, s, [m]) == Step(r, true, s, m)
  {
    assert [m][..0] == [];
  }

  lemma InvGivesTemps(r: Release, s: State)
    requires Inv(r, s)
    ensures TempsPresent(s)
  {
    forall i | 0 <= i < |s.callers| && Holding(s.callers[i]) ensures s.callers[i].temp in s.disk.names {
      assert CallerOk(r, s.disk, s.callers[i]);
    }
  }

  /** An unlink by name takes whatever file bears that name. */
  lemma UnlinkTakesAll(r: Release, s: State, i: nat, j: nat)
    requires i < |s.callers| && j < |s.callers| && i != j
    requires Pending(s.callers[i]) && Holding(s.callers[j]) && s.callers[i].temp == s.callers[j].temp
    ensures !TempsPresent(Step(r, true, s, Move(i, Go)))
  {
    var s' := Step(r, true, s, Move(i, Go));
    assert Holding(s'.callers[j]) && s'.callers[j].temp !in s'.disk.names;
  }
}
