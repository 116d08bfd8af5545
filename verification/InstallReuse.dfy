/** Why the assumption about temp names matters. `mkstemp` alone only promises a name that does
    not exist; this run obeys that promise and still ends with a truncated binary installed.
    Three callers race: the first renames its file away, the second takes the freed name, the
    first unlinks the second's file, the third takes the name again, and the second renames the
    third's half-written file into place. */
module InstallReuse {
  import opened Prelude
  import opened Install

  const V := "1"
  const WHOLE: Bytes := [1, 2]
  const HALF: Bytes := [1]
  const TEMP := Temp(V, "x")

  /** A release that accepts every archive and takes it for the binary. */
  function Lenient(): Release {
    Release(true, (version: string, archive: Bytes, sums: Bytes) => None, (archive: Bytes) => Ok(archive))
  }

  function Racers(a: Caller, b: Caller, c: Caller): seq<Caller> { [a, b, c] }

  const BEGIN := State(Disk({}, map[], []), Racers(Start(V), Start(V), Start(V)))

  /** A caller that has its verified binary and is about to pick a temp name. */
  const READY := Caller(V, MakeTemp, false, 2, WHOLE, [], WHOLE, Target(V), 0, 0, false, false, None)

  /** One that has written `n` bytes through inode `node`. */
  function At(pc: Pc, node: nat, n: nat, renamed: bool): Caller {
    READY.(pc := pc, temp := TEMP, node := node, written := n, renamed := renamed)
  }

  ghost predicate Reaches(moves: seq<Move>, s: State) {
    Run(Lenient(), false, BEGIN, moves) == s
  }

  lemma Extend(moves: seq<Move>, s: State, m: Move)
    requires Reaches(moves, s)
    ensures Reaches(moves + [m], Step(Lenient(), false, s, m))
  {
    assert (moves + [m])[..|moves|] == moves;
  }

  lemma Download(moves: seq<Move>, s: State, who: nat) returns (more: seq<Move>)
    requires Reaches(moves, s) && who < |s.callers| && s.callers[who] == Start(V)
    requires Target(V) !in s.disk.names
    ensures Reaches(more, State(s.disk.(dirs := s.disk.dirs + {V}), s.callers[who := READY]))
  {
    var s1 := State(s.disk, s.callers[who := Start(V).(pc := FetchArchive)]);
    Extend(moves, s, Move(who, Go));
    more := moves + [Move(who, Go)];
    Extend(more, s1, Move(who, Deliver(WHOLE)));
    more := more + [Move(who, Deliver(WHOLE))];
    var c2 := Start(V).(pc := FetchSums, archive := WHOLE, downloads := 1);
    var s2 := State(s.disk, s.callers[who := c2]);
    assert Reaches(more, s2);
    Extend(more, s2, Move(who, Deliver([])));
    more := more + [Move(who, Deliver([]))];
    more := Check(more, s, who);
  }

  lemma Check(moves: seq<Move>, s: State, who: nat) returns (more: seq<Move>)
    requires who < |s.callers|
    requires Reaches(moves, State(s.disk, s.callers[who := READY.(pc := Verify, binary := [])]))
    ensures Reaches(more, State(s.disk.(dirs := s.disk.dirs + {V}), s.callers[who := READY]))
  {
    var s3 := State(s.disk, s.callers[who := READY.(pc := Verify, binary := [])]);
    Extend(moves, s3, Move(who, Go));
    more := moves + [Move(who, Go)];
    var s4 := State(s.disk, s.callers[who := READY.(pc := Extract, binary := [])]);
    assert Reaches(more, s4);
    Extend(more, s4, Move(who, Go));
    more := more + [Move(who, Go)];
    var s5 := State(s.disk, s.callers[who := READY.(pc := MakeDir)]);
    assert Reaches(more, s5);
    Extend(more, s5, Move(who, Go));
    more := more + [Move(who, Go)];
  }

  const DONE := File(WHOLE, CREATED + EXECUTABLE)
  const LOST := File(WHOLE, CREATED)

  /** The caller at `who` opens the temp name and writes the first `n` bytes. */
  lemma OpenAndWrite(moves: seq<Move>, s: State, who: nat, n: nat) returns (more: seq<Move>)
    requires Reaches(moves, s) && who < |s.callers| && s.callers[who] == READY
    requires V in s.disk.dirs && TEMP !in s.disk.names && 0 < n <= 2
    ensures var d := s.disk;
      Reaches(more, State(Disk(d.dirs, d.names[TEMP := |d.nodes|], d.nodes + [File(WHOLE[..n], CREATED)]),
                          s.callers[who := At(Write, |d.nodes|, n, false)]))
  {
    var d := s.disk;
    Extend(moves, s, Move(who, Name("x")));
    more := moves + [Move(who, Name("x"))];
    var s1 := State(Disk(d.dirs, d.names[TEMP := |d.nodes|], d.nodes + [File([], CREATED)]),
                    s.callers[who := At(Write, |d.nodes|, 0, false)]);
    assert Reaches(more, s1);
    Extend(more, s1, Move(who, Chunk(n)));
    more := more + [Move(who, Chunk(n))];
    assert [] + WHOLE[0..0 + n] == WHOLE[..n];
    assert s1.disk.nodes[|d.nodes| := File(WHOLE[..n], CREATED)] == d.nodes + [File(WHOLE[..n], CREATED)];
  }

  /** The first caller installs its binary and stops just before its unlink. */
  lemma FirstInstalls(moves: seq<Move>) returns (more: seq<Move>)
    requires Reaches(moves, State(Disk({V}, map[], []), Racers(READY, READY, READY)))
    ensures Reaches(more, State(Disk({V}, map[Target(V) := 0], [DONE]), Racers(At(Unlink, 0, 2, true), READY, READY)))
  {
    more := OpenAndWrite(moves, State(Disk({V}, map[], []), Racers(READY, READY, READY)), 0, 2);
    assert WHOLE[..2] == WHOLE;
    assert Reaches(more, State(Disk({V}, map[TEMP := 0], [LOST]), Racers(At(Write, 0, 2, false), READY, READY)));
    more := FirstFinishes(more);
  }

  lemma FirstFinishes(moves: seq<Move>) returns (more: seq<Move>)
    requires Reaches(moves, State(Disk({V}, map[TEMP := 0], [LOST]), Racers(At(Write, 0, 2, false), READY, READY)))
    ensures Reaches(more, State(Disk({V}, map[Target(V) := 0], [DONE]), Racers(At(Unlink, 0, 2, true), READY, READY)))
  {
    Extend(moves, State(Disk({V}, map[TEMP := 0], [LOST]), Racers(At(Write, 0, 2, false), READY, READY)), Move(0, Go));
    more := moves + [Move(0, Go)];
    var s := State(Disk({V}, map[TEMP := 0], [LOST]), Racers(At(Chmod, 0, 2, false), READY, READY));
    assert Reaches(more, s);
    Extend(more, s, Move(0, Go));
    more := more + [Move(0, Go)];
    s := State(Disk({V}, map[TEMP := 0], [DONE]), Racers(At(Rename, 0, 2, false), READY, READY));
    assert Reaches(more, s);
    Extend(more, s, Move(0, Go));
    more := more + [Move(0, Go)];
    assert (map[TEMP := 0] - {TEMP})[Target(V) := 0] == map[Target(V) := 0];
  }

  /** The second writes a file of its own under the freed name, and the first unlinks it. */
  lemma SecondLosesItsFile(moves: seq<Move>) returns (more: seq<Move>)
    requires Reaches(moves, State(Disk({V}, map[Target(V) := 0], [DONE]), Racers(At(Unlink, 0, 2, true), READY, READY)))
    ensures Reaches(more, State(Disk({V}, map[Target(V) := 0], [DONE, LOST]),
                                Racers(At(Returned, 0, 2, true), At(Chmod, 1, 2, false), READY)))
  {
    var first := At(Unlink, 0, 2, true);
    more := OpenAndWrite(moves, State(Disk({V}, map[Target(V) := 0], [DONE]), Racers(first, READY, READY)), 1, 2);
    assert WHOLE[..2] == WHOLE;
    var s := State(Disk({V}, map[Target(V) := 0, TEMP := 1], [DONE, LOST]), Racers(first, At(Write, 1, 2, false), READY));
    assert Reaches(more, s);
    Extend(more, s, Move(1, Go));
    more := more + [Move(1, Go)];
    s := State(Disk({V}, map[Target(V) := 0, TEMP := 1], [DONE, LOST]), Racers(first, At(Chmod, 1, 2, false), READY));
    assert Reaches(more, s);
    Extend(more, s, Move(0, Go));
    more := more + [Move(0, Go)];
    assert map[Target(V) := 0, TEMP := 1] - {TEMP} == map[Target(V) := 0];
  }

  /** The third starts writing under that name, and the second installs the third's file. */
  lemma SecondInstallsThirdsHalf(moves: seq<Move>) returns (more: seq<Move>)
    requires Reaches(moves, State(Disk({V}, map[Target(V) := 0], [DONE, LOST]),
                                  Racers(At(Returned, 0, 2, true), At(Chmod, 1, 2, false), READY)))
    ensures Reaches(more, State(Disk({V}, map[Target(V) := 2], [DONE, LOST, File(HALF, CREATED + EXECUTABLE)]),
                                Racers(At(Returned, 0, 2, true), At(Unlink, 1, 2, true), At(Write, 2, 1, false))))
  {
    var first, second, third := At(Returned, 0, 2, true), At(Chmod, 1, 2, false), At(Write, 2, 1, false);
    more := OpenAndWrite(moves, State(Disk({V}, map[Target(V) := 0], [DONE, LOST]), Racers(first, second, READY)), 2, 1);
    var s := State(Disk({V}, map[Target(V) := 0, TEMP := 2], [DONE, LOST, File(HALF, CREATED)]),
                   Racers(first, second, third));
    assert WHOLE[..1] == HALF;
    assert Reaches(more, s);
    Extend(more, s, Move(1, Go));
    more := more + [Move(1, Go)];
    s := State(Disk({V}, map[Target(V) := 0, TEMP := 2], [DONE, LOST, File(HALF, CREATED + EXECUTABLE)]),
               Racers(first, At(Rename, 1, 2, false), third));
    assert Reaches(more, s);
    Extend(more, s, Move(1, Go));
    more := more + [Move(1, Go)];
    assert (map[Target(V) := 0, TEMP := 2] - {TEMP})[Target(V) := 2] == map[Target(V) := 2];
  }

  lemma AllDownload() returns (moves: seq<Move>)
    ensures Reaches(moves, State(Disk({V}, map[], []), Racers(READY, READY, READY)))
  {
    assert Reaches([], BEGIN);
    moves := Download([], BEGIN, 0);
    var s := State(Disk({V}, map[], []), Racers(READY, Start(V), Start(V)));
    assert {} + {V} == {V} && {V} + {V} == {V};
    assert Reaches(moves, s);
    moves := Download(moves, s, 1);
    s := State(Disk({V}, map[], []), Racers(READY, READY, Start(V)));
    assert Reaches(moves, s);
    moves := Download(moves, s, 2);
  }

  /** A run from the empty cache in which every `mkstemp` picks a name that does not exist, every
      caller has the whole binary in hand, one caller has returned the path, and the installed
      file is half of the binary. */
  lemma ReuseInstallsHalfABinary() returns (moves: seq<Move>)
    ensures Initial(BEGIN)
    ensures var end := Run(Lenient(), false, BEGIN, moves);
      && end.disk.Has(Target(V)) && end.disk.At(Target(V)).data == HALF
      && |end.callers| == 3 && end.callers[0].pc == Returned
      && forall i :: 0 <= i < 3 ==> end.callers[i].binary == WHOLE
  {
    moves := AllDownload();
    moves := FirstInstalls(moves);
    moves := SecondLosesItsFile(moves);
    moves := SecondInstallsThirdsHalf(moves);
  }
}
