// The file as the one-character look-ahead scanners (1/scan.c, scan.c) see it: fgetc hands out
// the characters of the file one after another and EOF (-1) from then on.
// A position i names the character fgetc returned last (the look-ahead
// cbuf); position |s| stands for EOF.
module Stream {
  import opened Wrappers
  import opened Chars
  import opened Lpp

  const EOF := -1

  /** The value of cbuf when the look-ahead sits at position i. */
  function CodeAt(s: seq<char>, i: nat): int
  {
    if i < |s| then s[i] as int else EOF
  }

  /** The position after one more fgetc: EOF is sticky. */
  function Next(s: seq<char>, i: nat): (j: nat)
    ensures i < |s| ==> j == i + 1
    ensures i >= |s| ==> j == i
  {
    if i < |s| then i + 1 else i
  }

  function Code(c: char): int { c as int }

  /** Number of alphanumeric characters from i on. */
  function AlnumFrom(s: seq<char>, i: nat): (n: nat)
    ensures i + n <= |s| || n == 0
    decreases |s| - i
  {
    if IsAlnumCode(CodeAt(s, i)) then 1 + AlnumFrom(s, i + 1) else 0
  }

  /** The run is alphanumeric throughout and the character after it is not. */
  lemma {:induction false} AlnumFromFacts(s: seq<char>, i: nat)
    ensures forall j :: i <= j < i + AlnumFrom(s, i) ==> IsAlnumCode(CodeAt(s, j))
    ensures !IsAlnumCode(CodeAt(s, i + AlnumFrom(s, i)))
    decreases |s| - i
  {
    if IsAlnumCode(CodeAt(s, i)) {
      AlnumFromFacts(s, i + 1);
    }
  }

  /** Number of digits from i on. */
  function DigitsFrom(s: seq<char>, i: nat): (n: nat)
    ensures i + n <= |s| || n == 0
    decreases |s| - i
  {
    if IsDigitCode(CodeAt(s, i)) then 1 + DigitsFrom(s, i + 1) else 0
  }

  lemma {:induction false} DigitsFromFacts(s: seq<char>, i: nat)
    ensures forall j :: i <= j < i + DigitsFrom(s, i) ==> IsDigitCode(CodeAt(s, j))
    ensures !IsDigitCode(CodeAt(s, i + DigitsFrom(s, i)))
    decreases |s| - i
  {
    if IsDigitCode(CodeAt(s, i)) {
      DigitsFromFacts(s, i + 1);
    }
  }

  /** The run is a digit string inside the file, and not empty when it
      starts with a digit. */
  lemma DigitsFromAreDigits(s: seq<char>, i: nat)
    requires i <= |s|
    ensures var n := DigitsFrom(s, i);
      i + n <= |s| && AllDigits(s[i..i + n]) && !IsDigitCode(CodeAt(s, i + n)) &&
      (IsDigitCode(CodeAt(s, i)) ==> n >= 1)
  {
    var n := DigitsFrom(s, i);
    var t := s[i..i + n];
    DigitsFromFacts(s, i);
    forall j | 0 <= j < n
      ensures IsDigit(t[j])
    {
      assert CodeAt(s, i + j) == t[j] as int;
    }
  }

  /** A string literal read with cbuf just after the opening quote, at i:
      Closed with the decoded text (a doubled quote stands for one) and the
      position of the character after the closing quote, or Unclosed when
      the file ends first. */
  datatype Literal = Unclosed | Closed(text: string, end: nat)

  /** The literal read after the characters t. */
  function Prepend(t: string, r: Literal): Literal
  {
    match r
    case Unclosed => Unclosed
    case Closed(u, e) => Closed(t + u, e)
  }

  lemma PrependTwice(a: string, b: string, r: Literal)
    ensures Prepend(a, Prepend(b, r)) == Prepend(a + b, r)
  {
    if r.Closed? {
      assert a + (b + r.text) == (a + b) + r.text;
    }
  }

  function LiteralFrom(s: seq<char>, i: nat): (r: Literal)
    ensures r.Closed? ==> i < r.end <= |s| && CodeAt(s, r.end - 1) == Code('\'')
    decreases |s| - i
  {
    if i >= |s| then Unclosed
    else if s[i] == '\'' then
      if CodeAt(s, i + 1) != Code('\'') then Closed([], i + 1)
      else Prepend("'", LiteralFrom(s, i + 2))
    else Prepend([s[i]], LiteralFrom(s, i + 1))
  }

  /** The text with every quote written twice. */
  function Doubled(t: string): string
  {
    if t == [] then [] else (if t[0] == '\'' then "''" else [t[0]]) + Doubled(t[1..])
  }

  lemma DoubledCons(c: char, t: string)
    ensures Doubled([c] + t) == (if c == '\'' then "''" else [c]) + Doubled(t)
  {
    assert ([c] + t)[1..] == t;
  }

  /** Writing every quote of the decoded text twice gives back the characters
      the literal was read from, and the closing quote follows them. */
  lemma {:induction false} LiteralSource(s: seq<char>, i: nat)
    requires LiteralFrom(s, i).Closed?
    ensures var r := LiteralFrom(s, i);
      i + |Doubled(r.text)| + 1 == r.end && s[i..r.end - 1] == Doubled(r.text)
    decreases |s| - i
  {
    if s[i] != '\'' || CodeAt(s, i + 1) == Code('\'') {
      var k := if s[i] == '\'' then 2 else 1;
      LiteralSource(s, i + k);
      LiteralStep(s, i, k, LiteralFrom(s, i + k));
    }
  }

  /** One step of LiteralSource: the characters s[i..i+k] decode to s[i]
      and the rest of the literal r follows them. */
  lemma LiteralStep(s: seq<char>, i: nat, k: nat, r: Literal)
    requires 1 <= k && r.Closed? && r.end <= |s| && i + k + |Doubled(r.text)| + 1 == r.end
    requires s[i + k..r.end - 1] == Doubled(r.text)
    requires s[i..i + k] == (if s[i] == '\'' then "''" else [s[i]])
    ensures i + |Doubled([s[i]] + r.text)| + 1 == r.end
    ensures s[i..r.end - 1] == Doubled([s[i]] + r.text)
  {
    DoubledCons(s[i], r.text);
    assert s[i..r.end - 1] == s[i..i + k] + s[i + k..r.end - 1];
  }

  /** The first position from i holding c, if the file has one. */
  function Find(s: seq<char>, i: nat, c: char): (r: Option<nat>)
    ensures r.Some? ==> i <= r.value < |s| && s[r.value] == c
    ensures r.Some? ==> forall j :: i <= j < r.value ==> s[j] != c
    ensures r.None? ==> forall j :: i <= j < |s| ==> s[j] != c
    decreases |s| - i
  {
    if i >= |s| then None
    else if s[i] == c then Some(i)
    else Find(s, i + 1, c)
  }

  /** A `{` comment opened at i: the position after the first `}` behind it,
      or None when the file ends first. */
  function BraceEnd(s: seq<char>, i: nat): (r: Option<nat>)
    ensures r.Some? ==> i + 2 <= r.value <= |s|
  {
    match Find(s, i + 1, '}')
    case None => None
    case Some(j) => Some(j + 1)
  }

  /** A block comment whose opening star is at i: look for a star after the last
      character read, then check the character after it for '/'; that
      character is consumed either way. */
  function BlockEnd(s: seq<char>, i: nat): (r: Option<nat>)
    ensures r.Some? ==> i + 2 < r.value + 1 <= |s| + 1 && s[r.value - 2] == '*' && s[r.value - 1] == '/'
    decreases |s| + 1 - i
  {
    match Find(s, i + 1, '*')
    case None => None
    case Some(j) => if CodeAt(s, j + 1) == Code('/') then Some(j + 2) else BlockEnd(s, j + 1)
  }

  /** A comment opened at i ends with its closing characters just before
      the position the scan resumes at. */
  lemma BraceEndCloses(s: seq<char>, i: nat)
    requires BraceEnd(s, i).Some?
    ensures var e := BraceEnd(s, i).value;
      i + 2 <= e <= |s| && s[e - 1] == '}' && forall j :: i < j < e - 1 ==> s[j] != '}'
  {
  }

  /** Where the look-ahead stands after check_newline at i. With `pairs`
      (1/scan.c) a \r\n or \n\r pair is read as one break; without it
      (scan.c) every break character is one. */
  function BreakEnd(s: seq<char>, i: nat, pairs: bool): nat
  {
    var c, d := CodeAt(s, i), CodeAt(s, i + 1);
    if pairs && ((c == Code('\r') && d == Code('\n')) || (c == Code('\n') && d == Code('\r'))) then i + 2
    else Next(s, i)
  }

  /** What the blank-skipping loop of both scan()s comes to from position i on
      line `line`: the first significant character and its line, or Fail
      when it returns S_ERROR (end of file, a comment left open, or a lone
      '/'). Comments count no lines. */
  datatype Gap = Stop(pos: nat, line: int) | Fail

  function Blank(s: seq<char>, i: nat, line: int, pairs: bool): Gap
    decreases |s| - i
  {
    var c := CodeAt(s, i);
    if c == EOF then Fail
    else if c == Code(' ') || c == Code('\t') then Blank(s, i + 1, line, pairs)
    else if c == Code('\n') || c == Code('\r') then Blank(s, BreakEnd(s, i, pairs), line + 1, pairs)
    else if c == Code('{') then
      match BraceEnd(s, i)
      case None => Fail
      case Some(e) => Blank(s, e, line, pairs)
    else if c == Code('/') then
      if CodeAt(s, i + 1) != Code('*') then Fail
      else match BlockEnd(s, i + 1)
        case None => Fail
        case Some(e) => Blank(s, e, line, pairs)
    else Stop(i, line)
  }

  /** A character that starts a blank, a comment or a lone '/'. */
  predicate Skipped(c: int)
  {
    c == Code(' ') || c == Code('\t') || c == Code('\n') || c == Code('\r') || c == Code('{') || c == Code('/')
  }

  /** The blank-skipping loop stops on a significant character of the file
      at or after where it started, and never lowers the line number. */
  lemma {:induction false} BlankStops(s: seq<char>, i: nat, line: int, pairs: bool)
    ensures var g := Blank(s, i, line, pairs);
      g.Stop? ==> i <= g.pos < |s| && line <= g.line && !Skipped(CodeAt(s, g.pos))
    ensures !Skipped(CodeAt(s, i)) && i < |s| ==> Blank(s, i, line, pairs) == Stop(i, line)
    decreases |s| - i
  {
    var c := CodeAt(s, i);
    if c == EOF {
    } else if c == Code(' ') || c == Code('\t') {
      BlankStops(s, i + 1, line, pairs);
    } else if c == Code('\n') || c == Code('\r') {
      BlankStops(s, BreakEnd(s, i, pairs), line + 1, pairs);
    } else if c == Code('{') {
      if BraceEnd(s, i).Some? {
        BlankStops(s, BraceEnd(s, i).value, line, pairs);
      }
    } else if c == Code('/') {
      if CodeAt(s, i + 1) == Code('*') && BlockEnd(s, i + 1).Some? {
        BlankStops(s, BlockEnd(s, i + 1).value, line, pairs);
      }
    }
  }

  /** A block comment is closed only by a star and slash whose star is not
      the character right after an earlier star: in the text below the
      second of the two closing stars is consumed as the character after
      the first one, so the comment runs on to the end of the file. */
  lemma DoubleStarMissed()
    ensures BlockEnd("/* **/", 1) == None
  {
    var s := "/* **/";
    assert Find(s, 2, '*') == Some(3);
    assert Find(s, 5, '*') == None;
  }

  /** A symbol token and the position after it. */
  datatype Lex = Lex(tok: int, end: nat)

  /** The switch of scan() over the other characters, with one
      character of look-ahead after '<', '>' and ':'; any other character is
      consumed as S_ERROR. */
  function SymbolLex(s: seq<char>, i: nat): Lex
    requires i < |s|
  {
    var c, d := s[i], CodeAt(s, i + 1);
    if c == '+' then Lex(TPLUS, i + 1)
    else if c == '-' then Lex(TMINUS, i + 1)
    else if c == '*' then Lex(TSTAR, i + 1)
    else if c == '=' then Lex(TEQUAL, i + 1)
    else if c == '(' then Lex(TLPAREN, i + 1)
    else if c == ')' then Lex(TRPAREN, i + 1)
    else if c == '[' then Lex(TLSQPAREN, i + 1)
    else if c == ']' then Lex(TRSQPAREN, i + 1)
    else if c == '.' then Lex(TDOT, i + 1)
    else if c == ',' then Lex(TCOMMA, i + 1)
    else if c == ';' then Lex(TSEMI, i + 1)
    else if c == '<' then
      if d == Code('=') then Lex(TLEEQ, i + 2)
      else if d == Code('>') then Lex(TNOTEQ, i + 2)
      else Lex(TLE, i + 1)
    else if c == '>' then
      if d == Code('=') then Lex(TGREQ, i + 2) else Lex(TGR, i + 1)
    else if c == ':' then
      if d == Code('=') then Lex(TASSIGN, i + 2) else Lex(TCOLON, i + 1)
    else Lex(S_ERROR, i + 1)
  }

  /** The two-character operators are recognised exactly where they are
      spelled, and consume both characters; every other symbol, and an
      illegal character, consumes one. */
  lemma SymbolLongestMatch(s: seq<char>, i: nat)
    requires i < |s|
    ensures var l, c, d := SymbolLex(s, i), s[i], CodeAt(s, i + 1);
      (l.tok == TASSIGN <==> c == ':' && d == Code('=')) &&
      (l.tok == TLEEQ <==> c == '<' && d == Code('=')) &&
      (l.tok == TNOTEQ <==> c == '<' && d == Code('>')) &&
      (l.tok == TGREQ <==> c == '>' && d == Code('=')) &&
      (l.tok == TCOLON <==> c == ':' && d != Code('=')) &&
      (l.tok == TLE <==> c == '<' && d != Code('=') && d != Code('>')) &&
      (l.tok == TGR <==> c == '>' && d != Code('=')) &&
      (l.end == i + 2 <==> l.tok in {TASSIGN, TLEEQ, TNOTEQ, TGREQ}) &&
      (l.end != i + 2 ==> l.end == i + 1)
  {
  }
}
