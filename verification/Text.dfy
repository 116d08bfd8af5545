/** The string operations the client leans on: Python's `str.splitlines`, `str.split`
    and `"\n".join`, each with the law that makes it invertible. */
module Text {

  /** The line boundaries of `str.splitlines`. */
  predicate IsLineBreak(c: char) {
    || c == '\n' || c == '\r' || c == '\U{0B}' || c == '\U{0C}'
    || c == '\U{1C}' || c == '\U{1D}' || c == '\U{1E}'
    || c == '\U{85}' || c == '\U{2028}' || c == '\U{2029}'
  }

  /** The characters `str.split()` separates on: every line boundary, and the other white space. */
  predicate IsSpace(c: char) {
    || IsLineBreak(c)
    || c == ' ' || c == '\t' || c == '\U{1F}' || c == '\U{A0}' || c == '\U{1680}'
    || '\U{2000}' <= c <= '\U{200A}'
    || c == '\U{202F}' || c == '\U{205F}' || c == '\U{3000}'
  }

  /** The same two classes by code point, the contiguous ones as ranges. */
  lemma CharacterClasses(c: char)
    ensures IsLineBreak(c) <==> c as int in {10, 11, 12, 13, 28, 29, 30, 133, 8232, 8233}
    ensures IsSpace(c) <==>
      || 9 <= c as int <= 13 || 28 <= c as int <= 32 || 8192 <= c as int <= 8202
      || c as int in {133, 160, 5760, 8232, 8233, 8239, 8287, 12288}
  {
  }

  ghost predicate BreakFree(s: string) {
    forall c :: c in s ==> !IsLineBreak(c)
  }

  ghost predicate SpaceFree(s: string) {
    forall c :: c in s ==> !IsSpace(c)
  }

  /** `s` up to its first line boundary, and the length of that boundary (0 at the end of the
      text; a carriage return followed by a line feed is one boundary). */
  function FirstLine(s: string): (r: (string, nat))
    ensures |r.0| + r.1 <= |s|
    ensures s != "" ==> 0 < |r.0| + r.1
  {
    if s == "" then ("", 0)
    else if s[0] == '\r' && 1 < |s| && s[1] == '\n' then ("", 2)
    else if IsLineBreak(s[0]) then ("", 1)
    else
      var (line, gap) := FirstLine(s[1..]);
      ([s[0]] + line, gap)
  }

  /** `str.splitlines()`: a final boundary does not open another line. */
  function SplitLines(s: string): seq<string>
    decreases |s|
  {
    if s == "" then []
    else
      var (line, gap) := FirstLine(s);
      [line] + SplitLines(s[|line| + gap..])
  }

  /** `s` up to its first white space. */
  function FirstWord(s: string): (word: string)
    ensures word <= s
    ensures |word| < |s| ==> IsSpace(s[|word|])
    ensures SpaceFree(word)
  {
    if s == "" || IsSpace(s[0]) then "" else [s[0]] + FirstWord(s[1..])
  }

  /** `str.split()`: the maximal runs without white space. */
  function Fields(s: string): seq<string>
    decreases |s|
  {
    if s == "" then []
    else if IsSpace(s[0]) then Fields(s[1..])
    else
      var word := FirstWord(s);
      [word] + Fields(s[|word|..])
  }

  /** Every line followed by a line feed. */
  function Unlines(lines: seq<string>): string {
    if lines == [] then "" else lines[0] + "\n" + Unlines(lines[1..])
  }

  lemma {:induction false} FirstLineStops(line: string, rest: string)
    requires BreakFree(line)
    ensures FirstLine(line + "\n" + rest) == (line, 1)
  {
    if line == "" {
      assert line + "\n" + rest == "\n" + rest;
    } else {
      var s := line + "\n" + rest;
      assert s[0] == line[0] && line[0] in line;
      assert s[1..] == line[1..] + "\n" + rest;
      FirstLineStops(line[1..], rest);
      assert [line[0]] + line[1..] == line;
    }
  }

  lemma {:induction false} LineEndsAt(line: string, end: string, rest: string)
    requires BreakFree(line) && end != "" && IsLineBreak(end[0])
    requires end == "\r\n" || (|end| == 1 && !(end == "\r" && rest != "" && rest[0] == '\n'))
    ensures FirstLine(line + end + rest) == (line, |end|)
  {
    var s := line + end + rest;
    if line == "" {
      assert s == end + rest && s[0] == end[0];
      assert end == "\r\n" ==> s[1] == '\n';
      assert |end| == 1 && rest != "" ==> s[1] == rest[0];
    } else {
      assert s[0] == line[0] && line[0] in line;
      assert s[1..] == line[1..] + end + rest;
      LineEndsAt(line[1..], end, rest);
      assert [line[0]] + line[1..] == line;
    }
  }

  /** The last line needs no boundary. */
  lemma {:induction false} LastLine(line: string)
    requires BreakFree(line) && line != ""
    ensures FirstLine(line) == (line, 0) && SplitLines(line) == [line]
  {
    assert line[0] in line && [line[0]] + line[1..] == line;
    if |line| > 1 {
      LastLine(line[1..]);
    }
  }

  /** A line ends at each of the boundaries, a carriage return with a line feed being one of them,
      and what follows is split for itself. */
  lemma {:induction false} LineEnds(line: string, end: string, rest: string)
    requires BreakFree(line)
    requires end == "\r\n" || (|end| == 1 && IsLineBreak(end[0]) && !(end == "\r" && rest != "" && rest[0] == '\n'))
    ensures SplitLines(line + end + rest) == [line] + SplitLines(rest)
  {
    LineEndsAt(line, end, rest);
    assert (line + end + rest)[|line| + |end|..] == rest;
  }

  /** Splitting undoes joining, for lines that hold no boundary themselves. */
  lemma {:induction false} SplitUndoesUnlines(lines: seq<string>)
    requires forall l :: l in lines ==> BreakFree(l)
    ensures SplitLines(Unlines(lines)) == lines
  {
    if lines != [] {
      var s := Unlines(lines);
      var line, rest := lines[0], Unlines(lines[1..]);
      FirstLineStops(line, rest);
      assert s == line + "\n" + rest;
      assert s[|line| + 1..] == rest;
      SplitUndoesUnlines(lines[1..]);
      assert [lines[0]] + lines[1..] == lines;
    }
  }

  lemma {:induction false} FirstWordStops(word: string, rest: string)
    requires SpaceFree(word)
    requires rest == "" || IsSpace(rest[0])
    ensures FirstWord(word + rest) == word
  {
    if word == "" {
      assert word + rest == rest;
    } else {
      var s := word + rest;
      assert s[0] == word[0] && word[0] in word;
      assert s[1..] == word[1..] + rest;
      FirstWordStops(word[1..], rest);
      assert [word[0]] + word[1..] == word;
    }
  }

  lemma FieldsOfWord(word: string, rest: string)
    requires word != "" && SpaceFree(word)
    requires rest == "" || IsSpace(rest[0])
    ensures Fields(word + rest) == [word] + Fields(rest)
  {
    var s := word + rest;
    assert s[0] == word[0] && word[0] in word;
    FirstWordStops(word, rest);
    assert s[|word|..] == rest;
  }

  lemma FieldsOfBlank(c: char, rest: string)
    requires IsSpace(c)
    ensures Fields([c] + rest) == Fields(rest)
  {
    assert ([c] + rest)[1..] == rest;
  }

  lemma FieldsAcross(a: string, c: char, d: char, b: string)
    requires a != "" && b != "" && SpaceFree(a) && SpaceFree(b) && IsSpace(c) && IsSpace(d)
    ensures Fields(a + ([c] + ([d] + b))) == [a, b]
  {
    FieldsOfWord(b, "");
    assert b + "" == b;
    FieldsOfBlank(d, b);
    FieldsOfBlank(c, [d] + b);
    FieldsOfWord(a, [c] + ([d] + b));
  }

  /** Two words with two blanks between them split into exactly those words. */
  lemma FieldsOfPair(a: string, b: string)
    requires a != "" && b != "" && SpaceFree(a) && SpaceFree(b)
    ensures Fields(a + "  " + b) == [a, b]
  {
    FieldsAcross(a, ' ', ' ', b);
    assert a + "  " + b == a + ([' '] + ([' '] + b));
  }

  /** `"\n".join(lines)`. */
  function Join(lines: seq<string>): string
    requires lines != []
  {
    if |lines| == 1 then lines[0] else lines[0] + "\n" + Join(lines[1..])
  }

  /** The pieces of `s` between the separators; always at least one. */
  function SplitOn(sep: char, s: string): (pieces: seq<string>)
    ensures pieces != []
  {
    if s == "" then [""]
    else
      var rest := SplitOn(sep, s[1..]);
      if s[0] == sep then [""] + rest else [[s[0]] + rest[0]] + rest[1..]
  }

  lemma {:induction false} SplitAfterPiece(sep: char, piece: string, rest: string)
    requires sep !in piece
    ensures SplitOn(sep, piece + [sep] + rest) == [piece] + SplitOn(sep, rest)
  {
    var s := piece + [sep] + rest;
    if piece == "" {
      assert s == [sep] + rest;
      assert s[1..] == rest;
    } else {
      assert s[0] == piece[0] && piece[0] in piece;
      assert s[1..] == piece[1..] + [sep] + rest;
      SplitAfterPiece(sep, piece[1..], rest);
      var tail := SplitOn(sep, s[1..]);
      assert tail[0] == piece[1..] && tail[1..] == SplitOn(sep, rest);
      assert [piece[0]] + piece[1..] == piece;
    }
  }

  lemma SplitThree(sep: char, a: string, b: string, c: string, rest: string)
    requires sep !in a && sep !in b && sep !in c
    ensures SplitOn(sep, a + [sep] + (b + [sep] + (c + [sep] + rest))) == [a, b, c] + SplitOn(sep, rest)
  {
    SplitAfterPiece(sep, c, rest);
    SplitAfterPiece(sep, b, c + [sep] + rest);
    SplitAfterPiece(sep, a, b + [sep] + (c + [sep] + rest));
  }

  lemma {:induction false} SplitBeforePiece(sep: char, rest: string, piece: string)
    requires sep !in piece
    ensures SplitOn(sep, rest + [sep] + piece) == SplitOn(sep, rest) + [piece]
  {
    var s := rest + [sep] + piece;
    if rest == "" {
      assert s == [sep] + piece && s[1..] == piece;
      SplitOnePiece(sep, piece);
    } else {
      assert s[0] == rest[0] && s[1..] == rest[1..] + [sep] + piece;
      SplitBeforePiece(sep, rest[1..], piece);
    }
  }

  lemma {:induction false} SplitOnePiece(sep: char, piece: string)
    requires sep !in piece
    ensures SplitOn(sep, piece) == [piece]
  {
    if piece != "" {
      assert piece[0] in piece;
      SplitOnePiece(sep, piece[1..]);
      assert [piece[0]] + piece[1..] == piece;
    }
  }

  lemma {:induction false} SplitUndoesJoin(lines: seq<string>)
    requires lines != [] && forall l :: l in lines ==> '\n' !in l
    ensures SplitOn('\n', Join(lines)) == lines
  {
    if |lines| == 1 {
      SplitOnePiece('\n', lines[0]);
    } else {
      SplitAfterPiece('\n', lines[0], Join(lines[1..]));
      SplitUndoesJoin(lines[1..]);
      assert [lines[0]] + lines[1..] == lines;
    }
  }
}
