// The buffer tokenizer of iteration 02: a pointer walks a NUL-terminated
// character buffer and links one token after another; a lexical error ends
// the list with an EOF token.
module Scan02 {
  import opened Wrappers
  import opened Chars
  import opened Lpp

  /** The 28 reserved words, in table order. */
  const Keywords: seq<Key> := [
    Key("and", TAND), Key("array", TARRAY), Key("begin", TBEGIN), Key("boolean", TBOOLEAN),
    Key("break", TBREAK), Key("call", TCALL), Key("char", TCHAR), Key("div", TDIV),
    Key("do", TDO), Key("else", TELSE), Key("end", TEND), Key("false", TFALSE),
    Key("if", TIF), Key("integer", TINTEGER), Key("not", TNOT), Key("of", TOF),
    Key("or", TOR), Key("procedure", TPROCEDURE), Key("program", TPROGRAM), Key("read", TREAD),
    Key("readln", TREADLN), Key("return", TRETURN), Key("then", TTHEN), Key("true", TTRUE),
    Key("var", TVAR), Key("while", TWHILE), Key("write", TWRITE), Key("writeln", TWRITELN)]

  /** The 18 punctuation symbols, two-character ones first. */
  const Punct: seq<Key> := [
    Key(":=", TASSIGN), Key("<>", TNOTEQ), Key(">=", TGREQ), Key("<=", TLEEQ),
    Key("+", TPLUS), Key("-", TMINUS), Key("*", TSTAR), Key("=", TEQUAL),
    Key("<", TLE), Key(">", TGR), Key("(", TLPAREN), Key(")", TRPAREN),
    Key("[", TLSQPAREN), Key("]", TRSQPAREN), Key(".", TDOT), Key(",", TCOMMA),
    Key(":", TCOLON), Key(";", TSEMI)]

  /** The spellings scan() indexes with `punct_id - 28` to get a symbol's length. */
  const PunctText: seq<string> := [
    "", "+", "-", "*", "=", "<>", "<", "<=", ">", ">=", "(", ")", "[", "]", ":=", ".", ",", ":", ";"]

  /** A keyword table whose every entry carries a keyword id. */
  predicate KeysOk(ks: seq<Key>)
  {
    forall i :: 0 <= i < |ks| ==> IsKeywordId(ks[i].keytoken)
  }

  /** Every symbol of the table is spelled with at least one character. */
  predicate NonEmptyWords(ps: seq<Key>)
  {
    forall i :: 0 <= i < |ps| ==> ps[i].keyword != []
  }

  /** A symbol table whose ids are symbol ids, index `text` at `id - 28` at
      their own spelling, and spell one or two characters, none of them NUL. */
  predicate PunctsOk(ps: seq<Key>, text: seq<string>)
  {
    |text| == TSEMI - 27 && NonEmptyWords(ps) &&
    forall i :: 0 <= i < |ps| ==>
      TPLUS <= ps[i].keytoken <= TSEMI && text[ps[i].keytoken - 28] == ps[i].keyword &&
      1 <= |ps[i].keyword| <= 2 && ps[i].keyword[|ps[i].keyword| - 1] != '\0'
  }

  /** The keyword table has KEYWORDSIZE entries and hands out exactly the
      keyword ids, each one with some entry. */
  lemma KeywordTable()
    ensures |Keywords| == KEYWORDSIZE && KeysOk(Keywords)
    ensures forall id :: IsKeywordId(id) ==> exists i :: 0 <= i < |Keywords| && Keywords[i].keytoken == id
  {
    forall id | IsKeywordId(id)
      ensures exists i :: 0 <= i < |Keywords| && Keywords[i].keytoken == id
    {
      var i :=
        if id == TAND then 0
        else if id == TARRAY then 1
        else if id == TBEGIN then 2
        else if id == TBOOLEAN then 3
        else if id == TBREAK then 4
        else if id == TCALL then 5
        else if id == TCHAR then 6
        else if id == TDIV then 7
        else if id == TDO then 8
        else if id == TELSE then 9
        else if id == TEND then 10
        else if id == TFALSE then 11
        else if id == TIF then 12
        else if id == TINTEGER then 13
        else if id == TNOT then 14
        else if id == TOF then 15
        else if id == TOR then 16
        else if id == TPROCEDURE then 17
        else if id == TPROGRAM then 18
        else if id == TREAD then 19
        else if id == TREADLN then 20
        else if id == TRETURN then 21
        else if id == TTHEN then 22
        else if id == TTRUE then 23
        else if id == TVAR then 24
        else if id == TWHILE then 25
        else if id == TWRITE then 26
        else 27;
      assert Keywords[i].keytoken == id;
    }
  }

  /** The symbol table has PUNCTSIZE entries, and PunctText spells each
      symbol id, so the token length and the pointer advance equal the
      matched text. */
  lemma PunctTextAgrees()
    ensures |Punct| == PUNCTSIZE && PunctsOk(Punct, PunctText)
  {
  }

  lemma PunctLengths()
    ensures forall i :: 0 <= i < 4 ==> |Punct[i].keyword| == 2
    ensures forall i :: 4 <= i < |Punct| ==> |Punct[i].keyword| == 1
    ensures forall i, j :: 0 <= i < |Punct| && 0 <= j < |Punct[i].keyword| ==> Punct[i].keyword[j] != '\0'
  {
  }

  /** The character under the pointer; past the end of the buffer the
      terminating NUL. */
  function CharAt(s: seq<char>, p: int): char
  {
    if 0 <= p < |s| then s[p] else '\0'
  }

  /** strncmp(p, w, strlen(w)) == 0 */
  predicate PrefixAt(s: seq<char>, p: int, w: string)
  {
    forall j :: 0 <= j < |w| ==> CharAt(s, p + j) == w[j]
  }

  /** A NUL-free word found at p lies inside the buffer. */
  lemma PrefixInside(s: seq<char>, p: nat, w: string)
    requires PrefixAt(s, p, w) && w != [] && w[|w| - 1] != '\0'
    ensures p + |w| <= |s|
  {
    assert CharAt(s, p + |w| - 1) == w[|w| - 1];
  }

  /** Index of the first table entry whose spelling starts the text at p. */
  function FirstPrefix(table: seq<Key>, s: seq<char>, p: int): (i: nat)
    ensures i <= |table|
    ensures i < |table| ==> PrefixAt(s, p, table[i].keyword)
    ensures forall j :: 0 <= j < i ==> !PrefixAt(s, p, table[j].keyword)
  {
    if table == [] then 0
    else if PrefixAt(s, p, table[0].keyword) then 0
    else 1 + FirstPrefix(table[1..], s, p)
  }

  /** Table order makes the first match a longest one: `:=`, `<>`, `>=` and
      `<=` win over `:`, `<` and `>`. */
  lemma FirstPunctIsLongest(s: seq<char>, p: int, j: nat)
    requires j < |Punct| && PrefixAt(s, p, Punct[j].keyword)
    ensures FirstPrefix(Punct, s, p) <= j
    ensures |Punct[j].keyword| <= |Punct[FirstPrefix(Punct, s, p)].keyword|
  {
    PunctLengths();
  }

  /** Number of alphanumeric characters from p on. */
  function AlnumRun(s: seq<char>, p: nat): (n: nat)
    ensures p + n <= |s| || n == 0
    ensures forall j :: p <= j < p + n ==> IsAlnum(CharAt(s, j))
    ensures !IsAlnum(CharAt(s, p + n))
    decreases |s| - p
  {
    if IsAlnum(CharAt(s, p)) then 1 + AlnumRun(s, p + 1) else 0
  }

  /** Number of digits from p on. */
  function DigitRun(s: seq<char>, p: nat): (n: nat)
    ensures p + n <= |s| || n == 0
    decreases |s| - p
  {
    if IsDigit(CharAt(s, p)) then 1 + DigitRun(s, p + 1) else 0
  }

  /** The run is digits throughout and the character after it is not one. */
  lemma {:induction false} DigitRunFacts(s: seq<char>, p: nat)
    ensures forall j :: p <= j < p + DigitRun(s, p) ==> IsDigit(CharAt(s, j))
    ensures !IsDigit(CharAt(s, p + DigitRun(s, p)))
    decreases |s| - p
  {
    if IsDigit(CharAt(s, p)) {
      DigitRunFacts(s, p + 1);
    }
  }

  /** A non-digit inside or at the end of the run is its end. */
  lemma DigitRunStops(s: seq<char>, p: nat, q: nat)
    requires p <= q <= p + DigitRun(s, p) && !IsDigit(CharAt(s, q))
    ensures q == p + DigitRun(s, p)
  {
    DigitRunFacts(s, p);
  }

  /** A run that starts with a digit is a non-empty digit string inside the
      buffer, followed by a non-digit. */
  lemma DigitRunIsDigits(s: seq<char>, p: nat)
    requires IsDigit(CharAt(s, p))
    ensures var n := DigitRun(s, p);
      n >= 1 && p + n <= |s| && AllDigits(s[p..p + n]) && !IsDigit(CharAt(s, p + n))
  {
    var n := DigitRun(s, p);
    var t := s[p..p + n];
    DigitRunFacts(s, p);
    forall j | 0 <= j < n
      ensures IsDigit(t[j])
    {
      assert CharAt(s, p + j) == t[j];
    }
  }

  /** A string literal as the scanner reads it from q on (just after the
      opening quote): Closed with the text it stands for and the position
      after the closing quote, or Unclosed when the buffer ends first. */
  datatype Literal = Unclosed | Closed(text: string, end: nat)

  /** The literal with `done` put in front of its text. */
  function Shift(done: string, r: Literal): Literal
  {
    match r
    case Unclosed => Unclosed
    case Closed(t, e) => Closed(done + t, e)
  }

  lemma ShiftTwice(a: string, b: string, r: Literal)
    ensures Shift(a, Shift(b, r)) == Shift(a + b, r)
  {
    if r.Closed? {
      assert a + (b + r.text) == (a + b) + r.text;
    }
  }

  function LiteralFrom(s: seq<char>, q: nat): Literal
    decreases |s| - q
  {
    if CharAt(s, q) == '\0' then Unclosed
    else if CharAt(s, q) == '\'' then
      if CharAt(s, q + 1) != '\'' then Closed([], q + 1)
      else Shift("'", LiteralFrom(s, q + 2))
    else Shift([CharAt(s, q)], LiteralFrom(s, q + 1))
  }

  /** How one character of a literal's text is written in the source: a
      quote twice, anything else once. */
  function Source(c: char): string
  {
    if c == '\'' then [c, c] else [c]
  }

  /** The source form of a literal's text: every quote written twice. */
  function DoubleQuotes(t: string): string
  {
    if t == [] then [] else Source(t[0]) + DoubleQuotes(t[1..])
  }

  function QuoteCount(t: string): nat
  {
    if t == [] then 0 else (if t[0] == '\'' then 1 else 0) + QuoteCount(t[1..])
  }

  lemma {:induction false} DoubleQuotesAppend(a: string, b: string)
    ensures DoubleQuotes(a + b) == DoubleQuotes(a) + DoubleQuotes(b)
    ensures QuoteCount(a + b) == QuoteCount(a) + QuoteCount(b)
  {
    if a == [] {
      assert a + b == b;
    } else {
      var ab := a + b;
      assert ab[0] == a[0];
      assert ab[1..] == a[1..] + b;
      DoubleQuotesAppend(a[1..], b);
      var h := Source(a[0]);
      assert DoubleQuotes(ab) == h + (DoubleQuotes(a[1..]) + DoubleQuotes(b));
      assert h + (DoubleQuotes(a[1..]) + DoubleQuotes(b)) == (h + DoubleQuotes(a[1..])) + DoubleQuotes(b);
    }
  }

  /** The source form is one character longer per quote. */
  lemma {:induction false} DoubleQuotesLength(t: string)
    ensures |DoubleQuotes(t)| == |t| + QuoteCount(t)
  {
    if t != [] { DoubleQuotesLength(t[1..]); }
  }

  /** A closed literal ends right after its source form and the closing
      quote, and the buffer holds exactly that source form: the text with
      every quote doubled. */
  lemma {:induction false} LiteralEnd(s: seq<char>, q: nat)
    requires LiteralFrom(s, q).Closed?
    ensures var r := LiteralFrom(s, q);
      r.end == q + |DoubleQuotes(r.text)| + 1 && r.end <= |s| &&
      s[q..r.end - 1] == DoubleQuotes(r.text) && s[r.end - 1] == '\''
    decreases |s| - q
  {
    var r := LiteralFrom(s, q);
    var c := CharAt(s, q);
    if c != '\'' || CharAt(s, q + 1) == '\'' {
      var k := |Source(c)|;
      LiteralEnd(s, q + k);
      var r' := LiteralFrom(s, q + k);
      assert r == Shift([c], r');
      assert [c][1..] == [];
      DoubleQuotesAppend([c], r'.text);
      assert DoubleQuotes(r.text) == Source(c) + DoubleQuotes(r'.text);
      assert s[q..q + k] == Source(c);
      assert s[q..r.end - 1] == s[q..q + k] + s[q + k..r.end - 1];
    }
  }

  /** The position after one line terminator at q (\n, \n\r, \r or \r\n),
      and how many lines that is. */
  function AfterBreak(s: seq<char>, q: nat): (r: nat)
    ensures q <= r <= q + 2
    ensures r == q <==> CharAt(s, q) != '\n' && CharAt(s, q) != '\r'
    ensures forall j :: q <= j < r ==> CharAt(s, j) == '\n' || CharAt(s, j) == '\r'
  {
    if CharAt(s, q) == '\n' then (if CharAt(s, q + 1) == '\r' then q + 2 else q + 1)
    else if CharAt(s, q) == '\r' then (if CharAt(s, q + 1) == '\n' then q + 2 else q + 1)
    else q
  }

  function BreakAt(s: seq<char>, q: nat): nat
  {
    if CharAt(s, q) == '\n' || CharAt(s, q) == '\r' then 1 else 0
  }

  /** Where a comment loop stops: at the end of the buffer, after counting
      some lines, or at a position to resume from. */
  datatype Skip = SkipEof(lines: nat) | Resume(pos: nat, lines: nat)

  function AddLines(b: nat, r: Skip): Skip
  {
    match r
    case SkipEof(l) => SkipEof(b + l)
    case Resume(e, l) => Resume(e, b + l)
  }

  lemma AddLinesTwice(a: nat, b: nat, r: Skip)
    ensures AddLines(a, AddLines(b, r)) == AddLines(a + b, r)
  {
  }

  /** The loop `while (*(p++) != c) { p = checkLinenum(p); if (*p == '\0') ... }`
      started at q. */
  function SkipTo(s: seq<char>, q: nat, c: char): (r: Skip)
    requires c != '\0'
    ensures r.Resume? ==> q < r.pos <= |s| && CharAt(s, r.pos - 1) == c
    decreases |s| - q
  {
    if CharAt(s, q) == c then Resume(q + 1, 0)
    else
      var q' := AfterBreak(s, q + 1);
      if CharAt(s, q') == '\0' then SkipEof(BreakAt(s, q + 1))
      else AddLines(BreakAt(s, q + 1), SkipTo(s, q', c))
  }

  /** The first position from q holding c or the terminating NUL. */
  function ScanTo(s: seq<char>, q: nat, c: char): (j: nat)
    ensures q <= j && (CharAt(s, j) == c || CharAt(s, j) == '\0')
    ensures forall i :: q <= i < j ==> CharAt(s, i) != c && CharAt(s, i) != '\0'
    decreases |s| - q
  {
    if CharAt(s, q) == c || CharAt(s, q) == '\0' then q else ScanTo(s, q + 1, c)
  }

  lemma {:induction false} ScanToSkips(s: seq<char>, q: nat, m: nat, c: char)
    requires q <= m && forall i :: q <= i < m ==> CharAt(s, i) != c && CharAt(s, i) != '\0'
    ensures ScanTo(s, q, c) == ScanTo(s, m, c)
    decreases m - q
  {
    if q < m { ScanToSkips(s, q + 1, m, c); }
  }

  /** The comment loop stops right after the first c that comes before the
      end of the buffer, and reports EOF when there is none. Line breaks are
      neither c nor NUL, so skipping them never hides either. */
  lemma {:induction false} SkipToFindsFirst(s: seq<char>, q: nat, c: char)
    requires c != '\0' && c != '\n' && c != '\r' && CharAt(s, q) != '\0'
    ensures var j := ScanTo(s, q, c);
      (SkipTo(s, q, c).Resume? <==> CharAt(s, j) == c) &&
      (SkipTo(s, q, c).Resume? ==> SkipTo(s, q, c).pos == j + 1)
    decreases |s| - q
  {
    if CharAt(s, q) != c {
      var q' := AfterBreak(s, q + 1);
      ScanToSkips(s, q, q', c);
      if CharAt(s, q') != '\0' {
        SkipToFindsFirst(s, q', c);
      }
    }
  }

  /** skipBlockComment's two nested loops started at q: find a star, then
      test the character after it for '/'. */
  function BlockEnd(s: seq<char>, q: nat): (r: Skip)
    ensures r.Resume? ==> q + 2 <= r.pos <= |s| && CharAt(s, r.pos - 2) == '*' && CharAt(s, r.pos - 1) == '/'
    decreases |s| + 2 - q
  {
    match SkipTo(s, q, '*')
    case SkipEof(b) => SkipEof(b)
    case Resume(q1, b) =>
      if CharAt(s, q1) == '/' then Resume(q1 + 1, b)
      else AddLines(b, BlockEnd(s, q1 + 1))
  }

  lemma BlockEndStep(s: seq<char>, q: nat)
    ensures SkipTo(s, q, '*').SkipEof? ==> BlockEnd(s, q) == SkipTo(s, q, '*')
    ensures SkipTo(s, q, '*').Resume? ==>
      var q1, b := SkipTo(s, q, '*').pos, SkipTo(s, q, '*').lines;
      BlockEnd(s, q) == if CharAt(s, q1) == '/' then Resume(q1 + 1, b) else AddLines(b, BlockEnd(s, q1 + 1))
  {
  }

  /** The star that opens a block comment also counts toward closing it, so a
      slash right after it already ends the comment. */
  lemma SlashAfterOpeningStar(s: seq<char>, p: nat)
    requires CharAt(s, p) == '*' && CharAt(s, p + 1) == '/'
    ensures BlockEnd(s, p) == Resume(p + 2, 0)
  {
  }

  function EofToken(lineNo: int, atBol: bool, hasSpace: bool): Token
  {
    Token(TK_EOF, 0, 0, lineNo, "", 0, atBol, hasSpace)
  }

  /** Keywords that start a line in the pretty printer. */
  predicate LeadsLine(id: int)
  {
    id == TPROGRAM || id == TPROCEDURE || id == TVAR || id == TBEGIN || id == TEND ||
    id == TELSE || id == TIF
  }

  /** Keywords always followed by a space. */
  predicate SpacedKeyword(id: int)
  {
    id == TINTEGER || id == TBOOLEAN || id == TCHAR || id == TTRUE || id == TFALSE
  }

  /** The token readName links for the name `name`. */
  function NameToken(ks: seq<Key>, name: string, lineNo: int, atBol: bool, hasSpace: bool): Token
  {
    var k := FindKey(ks, name);
    if k < |ks| then
      var id := ks[k].keytoken;
      Token(TK_KEYWORD, id, |name|, lineNo, "", 0, atBol || LeadsLine(id),
            if LeadsLine(id) then false else if SpacedKeyword(id) then true else hasSpace)
    else Token(TK_IDENT, TNAME, |name|, lineNo, name, 0, atBol, true)
  }

  /** A name is a keyword token exactly when it spells a table entry, and
      then it carries the token id of an entry with that spelling; any other
      name is an identifier token keeping its text. */
  lemma NameTokenClassifies(name: string, lineNo: int, atBol: bool, hasSpace: bool)
    ensures var t := NameToken(Keywords, name, lineNo, atBol, hasSpace);
      (t.kind == TK_KEYWORD <==> exists i :: 0 <= i < |Keywords| && Keywords[i].keyword == name) &&
      (t.kind == TK_KEYWORD ==> exists i :: 0 <= i < |Keywords| && Keywords[i].keyword == name && t.id == Keywords[i].keytoken) &&
      (t.kind != TK_KEYWORD ==> t.kind == TK_IDENT && t.id == TNAME && t.str == name) &&
      t.len == |name| && t.lineNo == lineNo
  {
    var k := FindKey(Keywords, name);
    if k < |Keywords| {
      assert Keywords[k].keyword == name;
    }
  }

  /** A name token read while the global at_bol is clear is well formed and
      carries at_bol only as a line-leading keyword. */
  lemma NameTokenShape(ks: seq<Key>, name: string, lineNo: int, hasSpace: bool)
    requires KeysOk(ks) && name != [] && lineNo >= 1
    ensures TokenOk(NameToken(ks, name, lineNo, false, hasSpace), lineNo)
    ensures NameToken(ks, name, lineNo, false, hasSpace).kind != TK_EOF
  {
    var k := FindKey(ks, name);
    if k < |ks| {
      assert IsKeywordId(ks[k].keytoken);
    }
  }

  /** What a linked token satisfies: kind and id agree, numbers fit MAXNUM. */
  predicate TokenShape(t: Token)
  {
    match t.kind
    case TK_EOF => t.id == 0 && t.len == 0
    case TK_IDENT => t.id == TNAME && t.len == |t.str| > 0
    case TK_KEYWORD => IsKeywordId(t.id) && t.str == []
    case TK_PUNCT => TPLUS <= t.id <= TSEMI
    case TK_NUM => t.id == TNUMBER && 0 <= t.num <= MAXNUM
    case TK_STR => t.id == TSTRING
  }

  /** A token as the scanner links it while the line counter reads `line`:
      `;` and `.` never carry has_space, and only line-leading keywords carry
      at_bol (the global at_bol flag itself is never set). */
  predicate TokenOk(t: Token, line: int)
  {
    TokenShape(t) && 1 <= t.lineNo <= line &&
    (t.id == TSEMI || t.id == TDOT ==> !t.hasSpace) &&
    (t.atBol ==> t.kind == TK_KEYWORD && LeadsLine(t.id))
  }

  /** Properties of every token list the scanner builds; line numbers never
      decrease along the list. */
  ghost predicate Scanned(toks: seq<Token>, line: int)
  {
    (forall i :: 0 <= i < |toks| ==> TokenOk(toks[i], line)) &&
    (forall i, j :: 0 <= i < j < |toks| ==> toks[i].lineNo <= toks[j].lineNo)
  }

  predicate NoEof(toks: seq<Token>)
  {
    forall i :: 0 <= i < |toks| ==> toks[i].kind != TK_EOF
  }

  lemma AppendScanned(toks: seq<Token>, t: Token, line: int)
    requires Scanned(toks, line) && TokenOk(t, line) && t.lineNo == line
    ensures Scanned(toks + [t], line)
  {
  }

  lemma ScannedLater(toks: seq<Token>, a: int, b: int)
    requires Scanned(toks, a) && a <= b
    ensures Scanned(toks, b)
  {
  }

  /** The search loop of checkPunct: strncmp of each entry's length, in order. */
  method PrefixIndex(table: seq<Key>, s: seq<char>, p: int) returns (i: nat)
    ensures i == FirstPrefix(table, s, p)
  {
    i := 0;
    ghost var k := FirstPrefix(table, s, p);
    while i < |table|
      invariant 0 <= i <= k
    {
      var w := table[i].keyword;
      var n := 0;
      while n < |w| && CharAt(s, p + n) == w[n]
        invariant 0 <= n <= |w|
        invariant forall j :: 0 <= j < n ==> CharAt(s, p + j) == w[j]
      {
        n := n + 1;
      }
      if n == |w| {
        return;
      }
      i := i + 1;
    }
  }

  /** readName's do-while loop: copy the alphanumeric run from p, giving up
      once MAXSTRSIZE-1 characters have been copied. */
  method NameLoop(s: seq<char>, p: nat) returns (text: string, tooLong: bool)
    requires IsAlpha(CharAt(s, p))
    ensures var n := AlnumRun(s, p);
      n >= 1 && p + n <= |s| && (tooLong <==> n >= MAXSTRSIZE - 1) && (!tooLong ==> text == s[p..p + n])
  {
    var i := 0;
    text := [];
    var q := p;
    ghost var n := AlnumRun(s, p);
    while true
      invariant p <= q < p + n <= |s| && i == q - p
      invariant text == s[p..q]
      decreases |s| - q
    {
      text := text + [CharAt(s, q)];
      i := i + 1;
      if i >= MAXSTRSIZE - 1 {
        return text, true;
      }
      q := q + 1;
      if !IsAlnum(CharAt(s, q)) {
        break;
      }
    }
    tooLong := false;
  }

  /** readNumber's do-while loop: accumulate digits left to right, stopping
      as soon as the value exceeds MAXNUM. */
  method DigitLoop(s: seq<char>, p: nat) returns (text: string, value: int, overflow: bool)
    requires IsDigit(CharAt(s, p))
    ensures var n := DigitRun(s, p); n >= 1 && p + n <= |s| && AllDigits(s[p..p + n])
    ensures var n := DigitRun(s, p); overflow <==> DecimalValue(s[p..p + n]) > MAXNUM
    ensures var n := DigitRun(s, p); !overflow ==> text == s[p..p + n] && value == DecimalValue(text)
  {
    value := 0;
    text := [];
    var q := p;
    ghost var n := DigitRun(s, p);
    DigitRunIsDigits(s, p);
    while IsDigit(CharAt(s, q))
      invariant p <= q <= p + n
      invariant text == s[p..q] && AllDigits(text)
      invariant value == DecimalValue(text) <= MAXNUM
      decreases p + n - q
    {
      var c := CharAt(s, q);
      DigitLoopStep(s, p, q);
      text := text + [c];
      value := value * 10 + DigitValue(c);
      if value > MAXNUM {
        return text, value, true;
      }
      q := q + 1;
    }
    DigitRunStops(s, p, q);
    overflow := false;
  }

  /** One round of readNumber's loop at a digit q inside the run from p:
      the slice grows by that digit, its value by ten times plus the digit,
      and stays at most the value of the whole run. */
  lemma {:induction false} DigitLoopStep(s: seq<char>, p: nat, q: nat)
    requires IsDigit(CharAt(s, p)) && p <= q <= p + DigitRun(s, p) && IsDigit(CharAt(s, q))
    ensures var n := DigitRun(s, p);
      q < p + n <= |s| && s[p..q + 1] == s[p..q] + [CharAt(s, q)] &&
      AllDigits(s[p..q]) && AllDigits(s[p..q + 1]) && AllDigits(s[p..p + n]) &&
      DecimalValue(s[p..q + 1]) == 10 * DecimalValue(s[p..q]) + DigitValue(CharAt(s, q)) &&
      DecimalValue(s[p..q + 1]) <= DecimalValue(s[p..p + n])
  {
    var n := DigitRun(s, p);
    DigitRunIsDigits(s, p);
    SliceValueStep(s, p, q, p + n);
    assert s[p..q + 1] == s[p..q] + [s[q]];
  }

  /** readString's loop from the opening quote at p: copy the source form,
      counting doubled quotes, until the closing quote; NUL or a source form
      of MAXSTRSIZE-1 characters stops it with ok false. */
  method StringLoop(s: seq<char>, p: nat) returns (ok: bool, text: string, len: int)
    requires p < |s|
    ensures var lit := LiteralFrom(s, p + 1);
      (ok <==> lit.Closed? && |DoubleQuotes(lit.text)| < MAXSTRSIZE - 1 && CharAt(s, lit.end) != '\0') &&
      (ok ==> lit.Closed? && text == DoubleQuotes(lit.text) && len == |lit.text|)
  {
    var strLen := 0;
    var apostrophes := 0;
    text := [];
    var q := p + 1;
    ghost var done: string := [];
    ghost var whole := LiteralFrom(s, p + 1);
    while true
      invariant p + 1 <= q <= |s| + 1
      invariant text == DoubleQuotes(done) && strLen == |text|
      invariant apostrophes == QuoteCount(done)
      invariant whole == Shift(done, LiteralFrom(s, q))
      decreases |s| + 1 - q
    {
      if strLen >= MAXSTRSIZE - 1 {
        if whole.Closed? {
          DoubleQuotesAppend(done, LiteralFrom(s, q).text);
        }
        return false, text, 0;
      }
      var c := CharAt(s, q);
      if c == '\0' {
        return false, text, 0;
      }
      if c == '\'' {
        q := q + 1;
        if CharAt(s, q) != '\'' {
          break;
        }
        assert LiteralFrom(s, q - 1) == Shift([c], LiteralFrom(s, q + 1));
        text := text + [c];
        strLen := strLen + 1;
        apostrophes := apostrophes + 1;
      } else {
        assert LiteralFrom(s, q) == Shift([c], LiteralFrom(s, q + 1));
      }
      ShiftTwice(done, [c], LiteralFrom(s, q + 1));
      DoubleQuotesAppend(done, [c]);
      text := text + [c];
      strLen := strLen + 1;
      done := done + [c];
      q := q + 1;
    }
    assert whole == Closed(done, q);
    if CharAt(s, q) == '\0' {
      return false, text, 0;
    }
    DoubleQuotesLength(done);
    return true, text, strLen - apostrophes;
  }

  /** The loop `while (*(p++) != c) { p = checkLinenum(p); if (*p == '\0') ... }`
      of both comment skippers, counting the line breaks it consumes. */
  method SkipLoop(s: seq<char>, q0: nat, c: char) returns (r: Skip)
    requires c != '\0' && q0 <= |s| + 1
    ensures r == SkipTo(s, q0, c)
  {
    var q := q0;
    var lines: nat := 0;
    while true
      invariant q0 <= q <= |s| + 1 && (q == q0 || CharAt(s, q) != '\0')
      invariant SkipTo(s, q0, c) == AddLines(lines, SkipTo(s, q, c))
      decreases |s| + 2 - q
    {
      var d := CharAt(s, q);
      q := q + 1;
      if d == c {
        return Resume(q, lines);
      }
      AddLinesTwice(lines, BreakAt(s, q), SkipTo(s, AfterBreak(s, q), c));
      lines := lines + BreakAt(s, q);
      q := AfterBreak(s, q);
      if CharAt(s, q) == '\0' {
        return SkipEof(lines);
      }
    }
  }

  /** One round of the block-comment loop, from q with `lines` counted
      since the comment began: where the next star leaves the comment. */
  lemma BlockLoopStep(s: seq<char>, q: nat, lines: nat, whole: Skip)
    requires whole == AddLines(lines, BlockEnd(s, q))
    ensures var star := SkipTo(s, q, '*');
      (star.SkipEof? ==> whole == SkipEof(lines + star.lines)) &&
      (star.Resume? && CharAt(s, star.pos) == '/' ==> whole == Resume(star.pos + 1, lines + star.lines)) &&
      (star.Resume? && CharAt(s, star.pos) != '/' ==>
        whole == AddLines(lines + star.lines, BlockEnd(s, star.pos + 1)))
  {
    BlockEndStep(s, q);
    var star := SkipTo(s, q, '*');
    if star.Resume? && CharAt(s, star.pos) != '/' {
      AddLinesTwice(lines, star.lines, BlockEnd(s, star.pos + 1));
    }
  }

  /** skipBlockComment's outer loop from the star at p: find a star, then
      test the character after it for '/'. */
  method BlockLoop(s: seq<char>, p: nat) returns (r: Skip)
    requires p <= |s|
    ensures r == BlockEnd(s, p)
  {
    var q := p;
    var lines: nat := 0;
    while true
      invariant q <= |s| + 1
      invariant BlockEnd(s, p) == AddLines(lines, BlockEnd(s, q))
      decreases |s| + 2 - q
    {
      BlockLoopStep(s, q, lines, BlockEnd(s, p));
      var star := SkipLoop(s, q, '*');
      if star.SkipEof? {
        return SkipEof(lines + star.lines);
      }
      lines := lines + star.lines;
      q := star.pos;
      var c := CharAt(s, q);
      q := q + 1;
      if c == '/' {
        return Resume(q, lines);
      }
    }
  }

  /** What one round of scan's loop does at p, with the line counter
      reading `line` and has_space `space`: link the tokens `out` and go on
      at q with the counter and the flag as given, or link EOF and stop. */
  datatype Round = Go(out: seq<Token>, q: nat, line: int, space: bool) | Stop(eof: Token)

  /** A separator round: a blank sets has_space; a line break counts one
      line and clears it; a closed comment counts its lines and sets it; an
      open comment, or a '/' that does not start one, ends the list. */
  ghost function SeparatorRound(s: seq<char>, p: nat, line: int, space: bool): (r: Round)
    ensures r.Go? ==> p < r.q && r.out == []
  {
    var c := CharAt(s, p);
    if c == ' ' || c == '\t' then Go([], p + 1, line, true)
    else if c == '\n' || c == '\r' then Go([], AfterBreak(s, p), line + 1, false)
    else if c == '{' then SkipRound(SkipTo(s, p, '}'), line, space)
    else if CharAt(s, p + 1) != '*' then Stop(EofToken(line, false, space))
    else SkipRound(BlockEnd(s, p + 1), line, space)
  }

  /** The round of a comment whose skip ended as `sk`: EOF linked at the
      line reached, or the scan resumes after it with has_space set. */
  function SkipRound(sk: Skip, line: int, space: bool): (r: Round)
    ensures r.Go? <==> sk.Resume?
    ensures r.Go? ==> r == Go([], sk.pos, line + sk.lines, true)
    ensures r.Stop? ==> r.eof == EofToken(line + sk.lines, false, space)
  {
    match sk
    case SkipEof(l) => Stop(EofToken(line + l, false, space))
    case Resume(q, l) => Go([], q, line + l, true)
  }

  /** A name round: the name's keyword or identifier token, or EOF when
      the name is too long. */
  ghost function NameRound(ks: seq<Key>, s: seq<char>, p: nat, line: int, space: bool): (r: Round)
    requires IsAlpha(CharAt(s, p))
    ensures r.Go? ==> p < r.q
  {
    var n := AlnumRun(s, p);
    if n >= MAXSTRSIZE - 1 then Stop(EofToken(line, false, space))
    else Go([NameToken(ks, s[p..p + n], line, false, space)], p + n, line, false)
  }

  /** A number round: the number's token, or EOF when its value exceeds MAXNUM. */
  ghost function NumberRound(s: seq<char>, p: nat, line: int, space: bool): (r: Round)
    requires IsDigit(CharAt(s, p))
    ensures r.Go? ==> p < r.q
  {
    var n := DigitRun(s, p);
    DigitRunIsDigits(s, p);
    var v := DecimalValue(s[p..p + n]);
    if v > MAXNUM then Stop(EofToken(line, false, space))
    else Go([Token(TK_NUM, TNUMBER, n, line, s[p..p + n], v, false, true)], p + n, line, false)
  }

  /** A string round: the string's token, or EOF when it is open, too long
      or ends the buffer. */
  ghost function QuoteRound(s: seq<char>, p: nat, line: int, space: bool): (r: Round)
    ensures r.Go? ==> p < r.q
  {
    var lit := LiteralFrom(s, p + 1);
    if lit.Closed? && |DoubleQuotes(lit.text)| < MAXSTRSIZE - 1 && CharAt(s, lit.end) != '\0' then
      LiteralEnd(s, p + 1);
      Go([Token(TK_STR, TSTRING, |lit.text|, line, DoubleQuotes(lit.text), 0, false, true)], lit.end, line, false)
    else Stop(EofToken(line, false, space))
  }

  /** A symbol round: the first symbol of the table spelled at p, has_space
      set except on `;` and `.`, or EOF when none is. */
  ghost function SymbolRound(ps: seq<Key>, s: seq<char>, p: nat, line: int, space: bool): (r: Round)
    requires NonEmptyWords(ps)
    ensures r.Go? ==> p < r.q
  {
    var k := FirstPrefix(ps, s, p);
    if k == |ps| then Stop(EofToken(line, false, space))
    else
      var id := ps[k].keytoken;
      Go([Token(TK_PUNCT, id, |ps[k].keyword|, line, "", 0, false, id != TSEMI && id != TDOT)],
         p + |ps[k].keyword|, line, false)
  }

  /** The round scan's loop runs at p: NUL ends the list, and every other
      character selects one branch of the switch. */
  ghost function RoundAt(ks: seq<Key>, ps: seq<Key>, s: seq<char>, p: nat, line: int, space: bool): (r: Round)
    requires NonEmptyWords(ps)
    ensures r.Go? ==> p < r.q
  {
    var c := CharAt(s, p);
    if c == '\0' then Stop(EofToken(line, false, space))
    else if c == ' ' || c == '\t' || c == '\n' || c == '\r' || c == '{' || c == '/' then
      SeparatorRound(s, p, line, space)
    else if IsAlpha(c) then NameRound(ks, s, p, line, space)
    else if IsDigit(c) then NumberRound(s, p, line, space)
    else if c == '\'' then QuoteRound(s, p, line, space)
    else SymbolRound(ps, s, p, line, space)
  }

  /** The tokens scan links from p on, while the line counter reads `line`
      and has_space is `space`, up to and including the EOF token that ends
      the list: the rounds from p, one after another. */
  ghost function TokensFrom(ks: seq<Key>, ps: seq<Key>, s: seq<char>, p: nat, line: int, space: bool): seq<Token>
    requires NonEmptyWords(ps)
    decreases |s| - p
  {
    match RoundAt(ks, ps, s, p, line, space)
    case Stop(eof) => [eof]
    case Go(out, q, l, b) => out + TokensFrom(ks, ps, s, q, l, b)
  }

  /** TokensFrom at p is the round at p followed, when scan goes on, by
      the tokens from where the round leaves the pointer. */
  lemma TokensFromRound(ks: seq<Key>, ps: seq<Key>, s: seq<char>, p: nat, line: int, space: bool)
    requires NonEmptyWords(ps)
    ensures var r := RoundAt(ks, ps, s, p, line, space);
      (r.Stop? ==> TokensFrom(ks, ps, s, p, line, space) == [r.eof]) &&
      (r.Go? ==> TokensFrom(ks, ps, s, p, line, space) == r.out + TokensFrom(ks, ps, s, r.q, r.line, r.space))
  {
  }

  /** At NUL the list is the EOF token alone. */
  lemma {:induction false} TokensFromNul(ks: seq<Key>, ps: seq<Key>, s: seq<char>, p: nat, line: int, space: bool)
    requires NonEmptyWords(ps) && CharAt(s, p) == '\0'
    ensures TokensFrom(ks, ps, s, p, line, space) == [EofToken(line, false, space)]
  {
  }

  class Tokenizer {
    /** The buffer, without its terminating NUL. */
    const src: seq<char>
    /** The static tables key[] and punct[], and the spellings scan() keeps
        in token_str. */
    const keywords: seq<Key>
    const puncts: seq<Key>
    const punctText: seq<string>
    var atBol: bool
    var hasSpace: bool
    var numAttr: int
    var stringAttr: string
    var lineNum: int
    /** The tokens linked after the list head so far. */
    var tokens: seq<Token>

    ghost predicate Valid()
      reads this
    {
      lineNum >= 1 && !atBol && Scanned(tokens, lineNum) && NoEof(tokens) &&
      KeysOk(keywords) && PunctsOk(puncts, punctText)
    }

    /** The scanner's globals as the program starts: line 1, no tokens. */
    constructor (src: seq<char>)
      ensures this.src == src && Valid()
      ensures keywords == Keywords && puncts == Punct && punctText == PunctText
      ensures !hasSpace && numAttr == 0 && stringAttr == [] && lineNum == 1 && tokens == []
    {
      this.src := src;
      keywords, puncts, punctText := Keywords, Punct, PunctText;
      KeywordTable();
      PunctTextAgrees();
      atBol, hasSpace := false, false;
      numAttr, stringAttr := 0, [];
      lineNum := 1;
      tokens := [];
    }

    function At(p: int): char
    {
      CharAt(src, p)
    }

    /** newToken: the token takes at_bol, has_space and the line number, and
        both flags are cleared for the next token. */
    method NewToken(kind: TokenKind, id: int, len: int) returns (tok: Token)
      modifies this`atBol, this`hasSpace
      ensures tok == Token(kind, id, len, lineNum, "", 0, old(atBol), old(hasSpace))
      ensures !atBol && !hasSpace
    {
      tok := Token(kind, id, len, lineNum, "", 0, atBol, hasSpace);
      atBol, hasSpace := false, false;
    }

    /** `cur = cur->next = newToken(TK_EOF, 0, 0)`: how every path of the
        scanner ends. */
    method LinkEof() returns (tok: Token)
      modifies this`atBol, this`hasSpace, this`tokens
      ensures tok == EofToken(lineNum, old(atBol), old(hasSpace))
      ensures tokens == old(tokens) + [tok] && !atBol && !hasSpace
    {
      tok := NewToken(TK_EOF, 0, 0);
      tokens := tokens + [tok];
    }

    /** `cur = cur->next = newToken(kind, id, len)` followed by the caller's
        assignments to str, num and has_space. */
    method Link(kind: TokenKind, id: int, len: int, str: string, num: int, space: bool) returns (cur: Token)
      modifies this`atBol, this`hasSpace, this`tokens
      ensures cur == Token(kind, id, len, lineNum, str, num, old(atBol), space)
      ensures tokens == old(tokens) + [cur] && !atBol && !hasSpace
    {
      cur := NewToken(kind, id, len);
      cur := cur.(str := str, num := num, hasSpace := space);
      tokens := tokens + [cur];
    }

    /** checkKeyword: a keyword spelling gives its keyword token, anything
        else an identifier token carrying the text. */
    method CheckKeyword() returns (cur: Token)
      modifies this`atBol, this`hasSpace, this`tokens
      ensures var k := FindKey(keywords, stringAttr);
        cur == (if k < |keywords|
                then Token(TK_KEYWORD, keywords[k].keytoken, |keywords[k].keyword|, lineNum, "", 0,
                           old(atBol), old(hasSpace))
                else Token(TK_IDENT, TNAME, |stringAttr|, lineNum, stringAttr, 0, old(atBol), true))
      ensures tokens == old(tokens) + [cur] && !atBol && !hasSpace
    {
      var i := KeyIndex(keywords, stringAttr);
      if i < |keywords| {
        cur := NewToken(TK_KEYWORD, keywords[i].keytoken, |keywords[i].keyword|);
        tokens := tokens + [cur];
        return;
      }
      cur := NewToken(TK_IDENT, TNAME, |stringAttr|);
      cur := cur.(str := stringAttr, hasSpace := true);
      tokens := tokens + [cur];
    }

    /** checkPunct: the id of the first table entry that starts the text at p,
        -1 when none does. */
    method CheckPunct(p: int) returns (id: int)
      ensures var k := FirstPrefix(puncts, src, p);
        id == (if k < |puncts| then puncts[k].keytoken else -1)
    {
      var i := PrefixIndex(puncts, src, p);
      if i < |puncts| {
        return puncts[i].keytoken;
      }
      return -1;
    }

    /** checkLinenum: one line terminator (\n, \n\r, \r or \r\n) is consumed
        and counted once; any other character is left alone. */
    method CheckLinenum(p: nat) returns (q: nat)
      modifies this`lineNum
      ensures At(p) == '\n' ==> q == p + (if At(p + 1) == '\r' then 2 else 1) && lineNum == old(lineNum) + 1
      ensures At(p) == '\r' ==> q == p + (if At(p + 1) == '\n' then 2 else 1) && lineNum == old(lineNum) + 1
      ensures At(p) != '\n' && At(p) != '\r' ==> q == p && lineNum == old(lineNum)
      ensures q == AfterBreak(src, p) && lineNum == old(lineNum) + BreakAt(src, p)
    {
      q := p;
      if At(q) == '\n' {
        q := q + 1;
        if At(q) == '\r' { q := q + 1; }
        lineNum := lineNum + 1;
      } else if At(q) == '\r' {
        q := q + 1;
        if At(q) == '\n' { q := q + 1; }
        lineNum := lineNum + 1;
      }
    }

    /** readName: the alphanumeric run from p; a run of MAXSTRSIZE-1
        characters or more ends the list with EOF. */
    method ReadName(p: nat) returns (cur: Token)
      requires IsAlpha(At(p))
      modifies this`atBol, this`hasSpace, this`tokens, this`stringAttr
      ensures tokens == old(tokens) + [cur] && !atBol && !hasSpace
      ensures var n := AlnumRun(src, p);
        n >= 1 && p + n <= |src| && (cur.kind == TK_EOF <==> n >= MAXSTRSIZE - 1) &&
        (n >= MAXSTRSIZE - 1 ==> cur == EofToken(lineNum, old(atBol), old(hasSpace))) &&
        (n < MAXSTRSIZE - 1 ==>
           stringAttr == src[p..p + n] && cur == NameToken(keywords, stringAttr, lineNum, old(atBol), old(hasSpace)))
      ensures cur.kind != TK_EOF && lineNum >= 1 && !old(atBol) && KeysOk(keywords) ==>
        TokenOk(cur, lineNum) && cur.lineNo == lineNum
    {
      var text, tooLong := NameLoop(src, p);
      stringAttr := text;
      if tooLong {
        cur := LinkEof();
        return;
      }
      cur := LinkName();
      if lineNum >= 1 && !old(atBol) && KeysOk(keywords) {
        NameTokenShape(keywords, stringAttr, lineNum, old(hasSpace));
      }
    }

    /** The end of readName: checkKeyword links the token, then line-leading
        keywords get at_bol and lose has_space, and type names and boolean
        constants get has_space. */
    method LinkName() returns (cur: Token)
      modifies this`atBol, this`hasSpace, this`tokens
      ensures tokens == old(tokens) + [cur] && !atBol && !hasSpace
      ensures cur == NameToken(keywords, stringAttr, lineNum, old(atBol), old(hasSpace))
    {
      cur := CheckKeyword();
      var id := cur.id;
      if LeadsLine(id) {
        cur := cur.(atBol := true, hasSpace := false);
      } else if SpacedKeyword(id) {
        cur := cur.(hasSpace := true);
      }
      tokens := tokens[..|tokens| - 1] + [cur];
    }

    /** readNumber: the decimal value of the digit run from p; once the
        running value exceeds MAXNUM the list ends with EOF. */
    method ReadNumber(p: nat) returns (cur: Token)
      requires IsDigit(At(p))
      modifies this`atBol, this`hasSpace, this`tokens, this`stringAttr, this`numAttr
      ensures tokens == old(tokens) + [cur] && !atBol && !hasSpace
      ensures var n := DigitRun(src, p);
        n >= 1 && p + n <= |src| && AllDigits(src[p..p + n]) &&
        (DecimalValue(src[p..p + n]) > MAXNUM ==> cur == EofToken(lineNum, old(atBol), old(hasSpace))) &&
        (DecimalValue(src[p..p + n]) <= MAXNUM ==>
           stringAttr == src[p..p + n] && numAttr == DecimalValue(stringAttr) &&
           cur == Token(TK_NUM, TNUMBER, n, lineNum, stringAttr, numAttr, old(atBol), true))
    {
      var text, value, overflow := DigitLoop(src, p);
      stringAttr, numAttr := text, value;
      if overflow {
        cur := LinkEof();
        return;
      }
      cur := Link(TK_NUM, TNUMBER, |text|, text, value, true);
    }

    /** readString: p is at the opening quote. A doubled quote stands for one
        quote; the token keeps the source form in `str` and the length of
        the text in `len`. An unclosed literal, one whose source form
        reaches MAXSTRSIZE-1 characters, or one closed by the buffer's last
        character ends the list with EOF. */
    method ReadString(p: nat) returns (cur: Token)
      requires At(p) == '\''
      modifies this`atBol, this`hasSpace, this`tokens, this`stringAttr
      ensures tokens == old(tokens) + [cur] && !atBol && !hasSpace
      ensures var lit := LiteralFrom(src, p + 1);
        (cur.kind != TK_EOF <==>
           lit.Closed? && |DoubleQuotes(lit.text)| < MAXSTRSIZE - 1 && At(lit.end) != '\0') &&
        (cur.kind == TK_EOF ==> cur == EofToken(lineNum, old(atBol), old(hasSpace))) &&
        (cur.kind != TK_EOF ==>
           lit.Closed? && stringAttr == DoubleQuotes(lit.text) &&
           cur == Token(TK_STR, TSTRING, |lit.text|, lineNum, stringAttr, 0, old(atBol), true))
    {
      var ok, text, len := StringLoop(src, p);
      stringAttr := text;
      if !ok {
        cur := LinkEof();
        return;
      }
      cur := Link(TK_STR, TSTRING, len, text, 0, true);
    }

    /** skipComment: p is at '{'. Skips through the first '}', counting the
        line breaks inside; reaching the end of the buffer first links EOF
        and gives None (NULL). */
    method SkipComment(p: nat) returns (r: Option<nat>)
      requires At(p) == '{'
      modifies this`atBol, this`hasSpace, this`tokens, this`lineNum
      ensures var sk := SkipTo(src, p, '}');
        lineNum == old(lineNum) + sk.lines &&
        (sk.Resume? ==> r == Some(sk.pos) && tokens == old(tokens) && atBol == old(atBol) && hasSpace == old(hasSpace)) &&
        (sk.SkipEof? ==>
           r == None && tokens == old(tokens) + [EofToken(lineNum, old(atBol), old(hasSpace))] && !atBol && !hasSpace)
    {
      var sk := SkipLoop(src, p, '}');
      lineNum := lineNum + sk.lines;
      if sk.SkipEof? {
        var _ := LinkEof();
        return None;
      }
      return Some(sk.pos);
    }

    /** skipBlockComment: p is at the '*' after '/'. Looks for a star, then
        for '/' right after it, counting the line breaks inside; reaching the
        end of the buffer first links EOF and gives None (NULL). */
    method SkipBlockComment(p: nat) returns (r: Option<nat>)
      requires At(p) == '*'
      modifies this`atBol, this`hasSpace, this`tokens, this`lineNum
      ensures var sk := BlockEnd(src, p);
        lineNum == old(lineNum) + sk.lines &&
        (sk.Resume? ==> r == Some(sk.pos) && tokens == old(tokens) && atBol == old(atBol) && hasSpace == old(hasSpace)) &&
        (sk.SkipEof? ==>
           r == None && tokens == old(tokens) + [EofToken(lineNum, old(atBol), old(hasSpace))] && !atBol && !hasSpace)
    {
      var sk := BlockLoop(src, p);
      lineNum := lineNum + sk.lines;
      if sk.SkipEof? {
        var _ := LinkEof();
        return None;
      }
      return Some(sk.pos);
    }

    /** The list is complete: it ends with the one EOF token, stamped with
        the final line number. */
    ghost predicate Finished()
      reads this
    {
      lineNum >= 1 && tokens != [] && tokens[|tokens| - 1].kind == TK_EOF &&
      tokens[|tokens| - 1].lineNo == lineNum &&
      NoEof(tokens[..|tokens| - 1]) && Scanned(tokens, lineNum)
    }

    /** Linking EOF onto a valid list completes it. */
    lemma EofFinishes(prior: seq<Token>, b: bool)
      requires Scanned(prior, lineNum) && NoEof(prior) && lineNum >= 1
      requires tokens == prior + [EofToken(lineNum, false, b)]
      ensures Finished()
    {
      AppendScanned(prior, EofToken(lineNum, false, b), lineNum);
      assert tokens[..|tokens| - 1] == prior;
    }

    /** The state after a round `r` run on the list `before`: the list
        ends with what the round links, and either scan stops or the
        pointer, the line counter and has_space are where the round says. */
    ghost predicate Ran(before: seq<Token>, r: Round, next: Option<nat>)
      reads this
    {
      match r
      case Stop(eof) => next == None && tokens == before + [eof]
      case Go(out, q, l, b) => next == Some(q) && tokens == before + out && lineNum == l && hasSpace == b
    }

    /** A round run at p keeps scan's account: when the list before it
        followed by TokensFrom at p is `whole`, the list the round ends the
        scan with is `whole`, or the list it reaches the next pointer with
        followed by the tokens scanned from there is `whole`. */
    lemma RoundKeeps(before: seq<Token>, p: nat, line: int, space: bool, next: Option<nat>, whole: seq<Token>)
      requires NonEmptyWords(puncts)
      requires before + TokensFrom(keywords, puncts, src, p, line, space) == whole
      requires Ran(before, RoundAt(keywords, puncts, src, p, line, space), next)
      ensures next.None? ==> tokens == whole
      ensures next.Some? ==> tokens + TokensFrom(keywords, puncts, src, next.value, lineNum, hasSpace) == whole
    {
      var r := RoundAt(keywords, puncts, src, p, line, space);
      TokensFromRound(keywords, puncts, src, p, line, space);
      if r.Go? {
        var rest := TokensFrom(keywords, puncts, src, r.q, r.line, r.space);
        assert before + (r.out + rest) == (before + r.out) + rest;
      }
    }

    /** The switch at the top of scan's loop: blanks, line breaks and the two
        comment forms link no token (except EOF when a comment is left
        open), and a '/' that does not open a comment ends the list. */
    method Separator(p: nat) returns (next: Option<nat>)
      requires Valid()
      requires var c := At(p); c == ' ' || c == '\t' || c == '\n' || c == '\r' || c == '{' || c == '/'
      modifies this`atBol, this`hasSpace, this`tokens, this`lineNum
      ensures lineNum >= old(lineNum)
      ensures next.Some? ==> p < next.value <= |src| && Valid()
      ensures next.None? ==> Finished()
      ensures Ran(old(tokens), SeparatorRound(src, p, old(lineNum), old(hasSpace)), next)
    {
      var c := At(p);
      if c == ' ' || c == '\t' {
        hasSpace := true;
        return Some(p + 1);
      } else if c == '\n' || c == '\r' {
        var q := CheckLinenum(p);
        hasSpace := false;
        ScannedLater(tokens, old(lineNum), lineNum);
        return Some(q);
      } else if c == '{' {
        next := BraceAt(p);
      } else if At(p + 1) == '*' {
        next := StarAt(p + 1);
      } else {
        var _ := LinkEof();
        EofFinishes(old(tokens), old(hasSpace));
        return None;
      }
    }

    /** scan's brace case: skipComment, then has_space is set when the
        scan resumes. */
    method BraceAt(p: nat) returns (next: Option<nat>)
      requires Valid() && At(p) == '{'
      modifies this`atBol, this`hasSpace, this`tokens, this`lineNum
      ensures lineNum >= old(lineNum)
      ensures next.Some? ==> p < next.value <= |src| && Valid()
      ensures next.None? ==> Finished()
      ensures Ran(old(tokens), SkipRound(SkipTo(src, p, '}'), old(lineNum), old(hasSpace)), next)
    {
      ghost var toks := tokens;
      next := SkipComment(p);
      ScannedLater(toks, old(lineNum), lineNum);
      if next.None? {
        EofFinishes(toks, old(hasSpace));
        return;
      }
      hasSpace := true;
    }

    /** scan's slash-star case, entered at the star: skipBlockComment, then
        has_space is set when the scan resumes. */
    method StarAt(p: nat) returns (next: Option<nat>)
      requires Valid() && At(p) == '*'
      modifies this`atBol, this`hasSpace, this`tokens, this`lineNum
      ensures lineNum >= old(lineNum)
      ensures next.Some? ==> p < next.value <= |src| && Valid()
      ensures next.None? ==> Finished()
      ensures Ran(old(tokens), SkipRound(BlockEnd(src, p), old(lineNum), old(hasSpace)), next)
    {
      ghost var toks := tokens;
      next := SkipBlockComment(p);
      ScannedLater(toks, old(lineNum), lineNum);
      if next.None? {
        EofFinishes(toks, old(hasSpace));
        return;
      }
      hasSpace := true;
    }

    /** Linking a well-formed token that is not EOF keeps the list valid. */
    lemma LinkKeeps(toks: seq<Token>, cur: Token)
      requires Scanned(toks, lineNum) && NoEof(toks) && lineNum >= 1 && !atBol
      requires KeysOk(keywords) && PunctsOk(puncts, punctText)
      requires TokenOk(cur, lineNum) && cur.lineNo == lineNum && cur.kind != TK_EOF
      requires tokens == toks + [cur]
      ensures Valid() && tokens[..|toks|] == toks
    {
      AppendScanned(toks, cur, lineNum);
      assert tokens[..|toks|] == toks;
    }

    /** scan's name branch: readName, then the pointer moves past the name. */
    method NameAt(p: nat) returns (next: Option<nat>)
      requires Valid() && IsAlpha(At(p))
      modifies this`atBol, this`hasSpace, this`tokens, this`stringAttr, this`numAttr
      ensures next.Some? ==> next.value <= |src| && Valid()
      ensures next.None? ==> Finished()
      ensures Ran(old(tokens), NameRound(keywords, src, p, old(lineNum), old(hasSpace)), next)
    {
      ghost var toks := tokens;
      var cur := ReadName(p);
      if cur.kind == TK_EOF {
        EofFinishes(toks, old(hasSpace));
        return None;
      }
      LinkKeeps(toks, cur);
      return Some(p + |stringAttr|);
    }

    /** scan's number branch: readNumber, then the pointer moves past the digits. */
    method NumberAt(p: nat) returns (next: Option<nat>)
      requires Valid() && IsDigit(At(p))
      modifies this`atBol, this`hasSpace, this`tokens, this`stringAttr, this`numAttr
      ensures next.Some? ==> next.value <= |src| && Valid()
      ensures next.None? ==> Finished()
      ensures Ran(old(tokens), NumberRound(src, p, old(lineNum), old(hasSpace)), next)
    {
      ghost var toks := tokens;
      var cur := ReadNumber(p);
      if cur.kind == TK_EOF {
        EofFinishes(toks, old(hasSpace));
        return None;
      }
      LinkKeeps(toks, cur);
      return Some(p + |stringAttr|);
    }

    /** scan's string branch: readString, then the pointer moves past the
        source form and both quotes. */
    method StringAt(p: nat) returns (next: Option<nat>)
      requires Valid() && At(p) == '\''
      modifies this`atBol, this`hasSpace, this`tokens, this`stringAttr, this`numAttr
      ensures next.Some? ==> next.value <= |src| && Valid()
      ensures next.None? ==> Finished()
      ensures Ran(old(tokens), QuoteRound(src, p, old(lineNum), old(hasSpace)), next)
    {
      ghost var toks := tokens;
      var cur := ReadString(p);
      if cur.kind == TK_EOF {
        EofFinishes(toks, old(hasSpace));
        return None;
      }
      LiteralEnd(src, p + 1);
      LinkKeeps(toks, cur);
      return Some(p + |stringAttr| + 2);
    }

    /** scan's last branch: checkPunct, the symbol's length from its spelling,
        and has_space set except on `;` and `.`; no symbol ends the list. */
    method PunctAt(p: nat) returns (next: Option<nat>)
      requires Valid()
      requires var c := At(p);
        c != '\0' && c != ' ' && c != '\t' && c != '\n' && c != '\r' && c != '{' && c != '/' &&
        !IsAlpha(c) && !IsDigit(c) && c != '\''
      modifies this`atBol, this`hasSpace, this`tokens, this`stringAttr, this`numAttr
      ensures next.Some? ==> next.value <= |src| && Valid()
      ensures next.None? ==> Finished()
      ensures Ran(old(tokens), SymbolRound(puncts, src, p, old(lineNum), old(hasSpace)), next)
    {
      ghost var toks := tokens;
      var id := CheckPunct(p);
      if id == -1 {
        var _ := LinkEof();
        EofFinishes(toks, old(hasSpace));
        return None;
      }
      ghost var k := FirstPrefix(puncts, src, p);
      PrefixInside(src, p, puncts[k].keyword);
      var len := |punctText[id - 28]|;
      var cur := Link(TK_PUNCT, id, len, "", 0, !(id == TSEMI || id == TDOT));
      LinkKeeps(toks, cur);
      return Some(p + len);
    }

    /** One pass of scan's loop from p: NUL links EOF and ends the list;
        otherwise the switch runs the branch for the character at p. */
    method ScanRound(p: nat) returns (next: Option<nat>)
      requires Valid()
      modifies this`atBol, this`hasSpace, this`tokens, this`lineNum, this`stringAttr, this`numAttr
      ensures lineNum >= old(lineNum)
      ensures next.Some? ==> next.value <= |src| && Valid()
      ensures next.None? ==> Finished()
      ensures Ran(old(tokens), RoundAt(keywords, puncts, src, p, old(lineNum), old(hasSpace)), next)
    {
      var c := At(p);
      if c == '\0' {
        ghost var toks := tokens;
        var _ := LinkEof();
        EofFinishes(toks, old(hasSpace));
        return None;
      }
      if c == ' ' || c == '\t' || c == '\n' || c == '\r' || c == '{' || c == '/' {
        next := Separator(p);
      } else if IsAlpha(c) {
        next := NameAt(p);
      } else if IsDigit(c) {
        next := NumberAt(p);
      } else if c == '\'' {
        next := StringAt(p);
      } else {
        next := PunctAt(p);
      }
    }

    /** scan: clears both flags and links tokens from p0 on until the list
        ends with EOF, either at the end of the buffer or at the first
        lexical error. */
    method Scan(p0: nat) returns (list: seq<Token>)
      requires lineNum >= 1 && KeysOk(keywords) && PunctsOk(puncts, punctText)
      modifies this`atBol, this`hasSpace, this`tokens, this`lineNum, this`stringAttr, this`numAttr
      ensures Finished() && list == tokens && lineNum >= old(lineNum)
      ensures list == TokensFrom(keywords, puncts, src, p0, old(lineNum), false)
      ensures At(p0) == '\0' ==> tokens == [EofToken(old(lineNum), false, false)]
    {
      if At(p0) == '\0' {
        TokensFromNul(keywords, puncts, src, p0, lineNum, false);
      }
      ghost var whole := TokensFrom(keywords, puncts, src, p0, lineNum, false);
      atBol, hasSpace := false, false;
      tokens := [];
      var p := p0;
      while true
        invariant Valid() && lineNum >= old(lineNum)
        invariant tokens + TokensFrom(keywords, puncts, src, p, lineNum, hasSpace) == whole
        decreases |src| - p
      {
        ghost var toks, line, space := tokens, lineNum, hasSpace;
        var next := ScanRound(p);
        RoundKeeps(toks, p, line, space, next, whole);
        if next.None? {
          return tokens;
        }
        p := next.value;
      }
    }
  }

  /** tokenize: the token list of a whole buffer, scanned from line 1. It
      always ends with exactly one EOF token, which carries the last line
      number, and every token before it is well formed. */
  method Tokenize(src: seq<char>) returns (toks: seq<Token>)
    ensures toks != [] && toks[|toks| - 1].kind == TK_EOF && NoEof(toks[..|toks| - 1])
    ensures Scanned(toks, toks[|toks| - 1].lineNo) && toks[|toks| - 1].lineNo >= 1
    ensures src == [] ==> toks == [EofToken(1, false, false)]
    ensures NonEmptyWords(Punct) && toks == TokensFrom(Keywords, Punct, src, 0, 1, false)
  {
    PunctTextAgrees();
    var t := new Tokenizer(src);
    toks := t.Scan(0);
    TokenizedBuffer(t.keywords, t.puncts, src, toks, t.lineNum);
  }

  /** What scan leaves over the module's tables, from line 1 at the start
      of the buffer, is the complete list tokenize promises. */
  lemma {:induction false} TokenizedBuffer(ks: seq<Key>, ps: seq<Key>, src: seq<char>, toks: seq<Token>, line: int)
    requires ks == Keywords && ps == Punct && NonEmptyWords(ps)
    requires line >= 1 && toks != [] && toks[|toks| - 1].kind == TK_EOF && toks[|toks| - 1].lineNo == line
    requires NoEof(toks[..|toks| - 1]) && Scanned(toks, line)
    requires toks == TokensFrom(ks, ps, src, 0, 1, false)
    requires CharAt(src, 0) == '\0' ==> toks == [EofToken(1, false, false)]
    ensures toks != [] && toks[|toks| - 1].kind == TK_EOF && NoEof(toks[..|toks| - 1])
    ensures Scanned(toks, toks[|toks| - 1].lineNo) && toks[|toks| - 1].lineNo >= 1
    ensures src == [] ==> toks == [EofToken(1, false, false)]
    ensures NonEmptyWords(Punct) && toks == TokensFrom(Keywords, Punct, src, 0, 1, false)
  {
  }
}
