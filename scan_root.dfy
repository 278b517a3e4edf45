// The look-ahead scanner at the top of the repository (scan.c): the same
// loop as 1/scan.c, but with its own keyword if-chain, a line-break check
// that reads one character at a time, no length limit on string literals
// and no separate token line number.
module ScanRoot {
  import opened Wrappers
  import opened Chars
  import opened Lpp
  import opened Stream

  /** check_keyword's if-chain. */
  function KeywordOf(name: string): (t: int)
    ensures t == TNAME || IsKeywordId(t)
  {
    if name == "program" then TPROGRAM
    else if name == "var" then TVAR
    else if name == "array" then TARRAY
    else if name == "of" then TOF
    else if name == "begin" then TBEGIN
    else if name == "end" then TEND
    else if name == "if" then TIF
    else if name == "then" then TTHEN
    else if name == "else" then TELSE
    else if name == "procedure" then TPROCEDURE
    else if name == "return" then TRETURN
    else if name == "call" then TCALL
    else if name == "while" then TWHILE
    else if name == "do" then TDO
    else if name == "not" then TNOT
    else if name == "or" then TOR
    else if name == "div" then TDIV
    else if name == "and" then TAND
    else if name == "char" then TCHAR
    else if name == "integer" then TINTEGER
    else if name == "boolean" then TBOOLEAN
    else if name == "readln" then TREADLN
    else if name == "writeln" then TWRITELN
    else if name == "true" then TTRUE
    else if name == "false" then TFALSE
    else if name == "read" then TREAD
    else if name == "write" then TWRITE
    else if name == "break" then TBREAK
    else TNAME
  }

  /** The spelling of each reserved word, by token id. */
  function Spelling(id: int): string
    requires IsKeywordId(id)
  {
    if id == TPROGRAM then "program"
    else if id == TVAR then "var"
    else if id == TARRAY then "array"
    else if id == TOF then "of"
    else if id == TBEGIN then "begin"
    else if id == TEND then "end"
    else if id == TIF then "if"
    else if id == TTHEN then "then"
    else if id == TELSE then "else"
    else if id == TPROCEDURE then "procedure"
    else if id == TRETURN then "return"
    else if id == TCALL then "call"
    else if id == TWHILE then "while"
    else if id == TDO then "do"
    else if id == TNOT then "not"
    else if id == TOR then "or"
    else if id == TDIV then "div"
    else if id == TAND then "and"
    else if id == TCHAR then "char"
    else if id == TINTEGER then "integer"
    else if id == TBOOLEAN then "boolean"
    else if id == TREADLN then "readln"
    else if id == TWRITELN then "writeln"
    else if id == TTRUE then "true"
    else if id == TFALSE then "false"
    else if id == TREAD then "read"
    else if id == TWRITE then "write"
    else "break"
  }

  /** Every reserved word is recognised as its own token. */
  lemma KeywordOfSpelling(id: int)
    requires IsKeywordId(id)
    ensures KeywordOf(Spelling(id)) == id
  {
  }

  /** Any other name is TNAME: a name that is not TNAME is the spelling of
      the reserved word it gives. */
  lemma KeywordOfNames(name: string)
    ensures KeywordOf(name) == TNAME || (IsKeywordId(KeywordOf(name)) && Spelling(KeywordOf(name)) == name)
  {
  }

  /** The scanner state: the file `input` with the look-ahead at position
      `at` (cbuf), the line number and the token attributes. */
  class Scanner {
    const input: seq<char>
    var at: nat
    var cbuf: int
    var lineNum: int
    var numAttr: int
    var stringAttr: string

    ghost predicate Valid()
      reads this
    {
      at <= |input| && cbuf == CodeAt(input, at)
    }

    /** init_scan after the file is open: the first character is read
        and counting starts at line 1. */
    constructor (input: seq<char>)
      ensures Valid() && this.input == input
      ensures at == 0 && lineNum == 1
    {
      this.input := input;
      at := 0;
      cbuf := CodeAt(input, 0);
      lineNum := 1;
      numAttr := 0;
      stringAttr := [];
    }

    /** cbuf = fgetc(fp). */
    method Advance()
      requires Valid()
      modifies this`at, this`cbuf
      ensures Valid() && at == Next(input, old(at))
    {
      at := Next(input, at);
      cbuf := CodeAt(input, at);
    }

    /** check_keyword on the name in string_attr. */
    method CheckKeyword() returns (t: int)
      ensures t == KeywordOf(stringAttr)
      ensures t == TNAME || (IsKeywordId(t) && Spelling(t) == stringAttr)
    {
      KeywordOfNames(stringAttr);
      return KeywordOf(stringAttr);
    }

    /** check_newline: whichever break cbuf holds, one character is read
        and one line counted, so \r\n counts as two lines. */
    method CheckNewline()
      requires Valid() && (cbuf == Code('\r') || cbuf == Code('\n'))
      modifies this`at, this`cbuf, this`lineNum
      ensures Valid() && at == old(at) + 1 == BreakEnd(input, old(at), false)
      ensures lineNum == old(lineNum) + 1
    {
      if cbuf == Code('\r') {
        Advance();
        lineNum := lineNum + 1;
      } else if cbuf == Code('\n') {
        Advance();
        lineNum := lineNum + 1;
      }
    }

    /** while ((cbuf = fgetc(fp)) != c) if (cbuf == EOF) fail: the
        look-ahead ends on the first c after it, if the file has one. */
    method SkipUntil(c: char) returns (found: bool)
      requires Valid()
      modifies this`at, this`cbuf
      ensures Valid()
      ensures found <==> Find(input, old(at) + 1, c).Some?
      ensures found ==> at == Find(input, old(at) + 1, c).value
    {
      ghost var f := Find(input, old(at) + 1, c);
      Advance();
      while cbuf != Code(c)
        invariant Valid() && Find(input, at, c) == f
        decreases |input| - at
      {
        if cbuf == EOF {
          return false;
        }
        Advance();
      }
      return true;
    }

    /** A `{` comment, with cbuf on the brace. */
    method SkipBrace() returns (ok: bool)
      requires Valid() && cbuf == Code('{')
      modifies this`at, this`cbuf
      ensures Valid() && (ok <==> BraceEnd(input, old(at)).Some?)
      ensures ok ==> at == BraceEnd(input, old(at)).value
    {
      ok := SkipUntil('}');
      if ok {
        Advance();
      }
    }

    /** A block comment, with cbuf on the star after the slash. */
    method SkipBlock() returns (ok: bool)
      requires Valid() && cbuf == Code('*')
      modifies this`at, this`cbuf
      ensures Valid() && (ok <==> BlockEnd(input, old(at)).Some?)
      ensures ok ==> at == BlockEnd(input, old(at)).value
    {
      ghost var r := BlockEnd(input, at);
      while true
        invariant Valid() && old(at) <= at && BlockEnd(input, at) == r
        decreases |input| - at
      {
        var found := SkipUntil('*');
        if !found {
          return false;
        }
        Advance();
        if cbuf == Code('/') {
          break;
        }
      }
      Advance();
      return true;
    }

    /** What scan() leaves after reading a name that starts at p. */
    ghost predicate NameRead(p: nat, tok: int)
      reads this
    {
      var n := AlnumFrom(input, p);
      p <= |input| &&
      if n < MAXSTRSIZE - 1 then
        tok == KeywordOf(input[p..p + n]) && stringAttr == input[p..p + n] && at == p + n
      else
        tok == S_ERROR && at == p + MAXSTRSIZE - 2
    }

    /** What scan() leaves after reading a number that starts at p. */
    ghost predicate NumberRead(p: nat, tok: int)
      reads this
    {
      var n := DigitsFrom(input, p);
      if p > |input| then false
      else
        DigitsFromAreDigits(input, p);
        var v := DecimalValue(input[p..p + n]);
        if v <= MAXNUM then tok == TNUMBER && numAttr == v && at == p + n
        else tok == S_ERROR
    }

    /** What scan() leaves after reading a string whose opening quote is
        at p: the whole text, however long. */
    ghost predicate StringRead(p: nat, tok: int)
      reads this
    {
      var lit := LiteralFrom(input, p + 1);
      if lit.Closed? && CodeAt(input, lit.end) != EOF then
        tok == TSTRING && stringAttr == lit.text && at == lit.end
      else
        tok == S_ERROR
    }

    /** What scan() leaves after reading the token that starts at p. */
    ghost predicate TokenRead(p: nat, tok: int)
      reads this
    {
      var c := CodeAt(input, p);
      if IsAlphaCode(c) then NameRead(p, tok)
      else if IsDigitCode(c) then NumberRead(p, tok)
      else if c == Code('\'') then StringRead(p, tok)
      else p < |input| && tok == SymbolLex(input, p).tok && at == SymbolLex(input, p).end
    }

    /** The name loop: copy the alphanumeric run, failing once
        MAXSTRSIZE-1 characters are held (the look-ahead then stays on the
        last character copied). */
    method ReadAlnum() returns (text: string, ok: bool)
      requires Valid() && IsAlphaCode(cbuf)
      modifies this`at, this`cbuf
      ensures Valid()
      ensures var n := AlnumFrom(input, old(at));
        old(at) + n <= |input| && (ok <==> n < MAXSTRSIZE - 1) &&
        (ok ==> text == input[old(at)..old(at) + n] && at == old(at) + n) &&
        (!ok ==> at == old(at) + MAXSTRSIZE - 2)
    {
      ghost var p := at;
      ghost var n := AlnumFrom(input, p);
      AlnumFromFacts(input, p);
      text := [];
      while true
        invariant Valid() && p <= at < p + n && text == input[p..at] && |text| < MAXSTRSIZE - 1
        decreases |input| - at
      {
        text := text + [input[at]];
        if |text| >= MAXSTRSIZE - 1 {
          return text, false;
        }
        Advance();
        if !IsAlnumCode(cbuf) {
          break;
        }
      }
      ok := true;
    }

    /** A name: the run, then check_keyword on it. */
    method ReadName() returns (tok: int)
      requires Valid() && IsAlphaCode(cbuf)
      modifies this`at, this`cbuf, this`stringAttr
      ensures Valid() && NameRead(old(at), tok)
    {
      var text, ok := ReadAlnum();
      stringAttr := text;
      if !ok {
        return S_ERROR;
      }
      tok := CheckKeyword();
    }

    /** The number loop: accumulate the value digit by digit, failing as
        soon as it exceeds MAXNUM. */
    method ReadNumber() returns (tok: int)
      requires Valid() && IsDigitCode(cbuf)
      modifies this`at, this`cbuf, this`numAttr
      ensures Valid() && NumberRead(old(at), tok)
    {
      ghost var p := at;
      ghost var n := DigitsFrom(input, p);
      DigitsFromFacts(input, p);
      DigitsFromAreDigits(input, p);
      var num := 0;
      while true
        invariant Valid() && p <= at < p + n <= |input|
        invariant AllDigits(input[p..at]) && num == DecimalValue(input[p..at]) <= MAXNUM
        decreases |input| - at
      {
        SliceValueStep(input, p, at, p + n);
        num := num * 10 + DigitValue(input[at]);
        if num > MAXNUM {
          numAttr := num;
          return S_ERROR;
        }
        Advance();
        if !IsDigitCode(cbuf) {
          break;
        }
      }
      numAttr := num;
      return TNUMBER;
    }

    /** The string loop, with cbuf on the opening quote: a doubled quote
        stores one quote; the end of the file inside the literal, or right
        after it, fails. */
    method ReadString() returns (tok: int)
      requires Valid() && cbuf == Code('\'')
      modifies this`at, this`cbuf, this`stringAttr
      ensures Valid() && StringRead(old(at), tok)
    {
      ghost var lit := LiteralFrom(input, at + 1);
      Advance();
      var text: string := [];
      while true
        invariant Valid() && lit == Prepend(text, LiteralFrom(input, at))
        decreases |input| - at
      {
        if cbuf == EOF {
          return S_ERROR;
        }
        if cbuf == Code('\'') {
          Advance();
          if cbuf != Code('\'') {
            break;
          }
        }
        PrependTwice(text, [input[at]], LiteralFrom(input, at + 1));
        text := text + [input[at]];
        Advance();
      }
      if cbuf == EOF {
        return S_ERROR;
      }
      stringAttr := text;
      return TSTRING;
    }

    /** The symbol switch, with cbuf on a character that starts no name,
        number or string. Its EOF case cannot be reached: scan() has
        returned on EOF before. */
    method ReadSymbol() returns (tok: int)
      requires Valid() && cbuf != EOF
      modifies this`at, this`cbuf
      ensures Valid() && at <= |input| && old(at) < |input|
      ensures tok == SymbolLex(input, old(at)).tok && at == SymbolLex(input, old(at)).end
    {
      var c := cbuf;
      Advance();
      if c == Code('+') { return TPLUS; }
      if c == Code('-') { return TMINUS; }
      if c == Code('*') { return TSTAR; }
      if c == Code('=') { return TEQUAL; }
      if c == Code('<') {
        if cbuf == Code('=') {
          Advance();
          return TLEEQ;
        } else if cbuf == Code('>') {
          Advance();
          return TNOTEQ;
        }
        return TLE;
      }
      if c == Code('>') {
        if cbuf == Code('=') {
          Advance();
          return TGREQ;
        }
        return TGR;
      }
      if c == Code('(') { return TLPAREN; }
      if c == Code(')') { return TRPAREN; }
      if c == Code('[') { return TLSQPAREN; }
      if c == Code(']') { return TRSQPAREN; }
      if c == Code(':') {
        if cbuf == Code('=') {
          Advance();
          return TASSIGN;
        }
        return TCOLON;
      }
      if c == Code('.') { return TDOT; }
      if c == Code(',') { return TCOMMA; }
      if c == Code(';') { return TSEMI; }
      return S_ERROR;
    }

    /** The top of scan()'s loop: blanks, line breaks and comments are
        skipped until a character that starts a token; false where scan()
        returns S_ERROR instead. */
    method SkipBlanks() returns (ok: bool)
      requires Valid()
      modifies this`at, this`cbuf, this`lineNum
      ensures Valid()
      ensures var g := Blank(input, old(at), old(lineNum), false);
        (ok <==> g.Stop?) && (ok ==> at == g.pos && lineNum == g.line && at < |input|)
    {
      ghost var g := Blank(input, at, lineNum, false);
      while true
        invariant Valid() && Blank(input, at, lineNum, false) == g
        decreases |input| - at
      {
        if cbuf == EOF {
          return false;
        }
        if cbuf == Code(' ') || cbuf == Code('\t') {
          Advance();
        } else if cbuf == Code('\n') || cbuf == Code('\r') {
          CheckNewline();
        } else if cbuf == Code('{') {
          var closed := SkipBrace();
          if !closed {
            return false;
          }
        } else if cbuf == Code('/') {
          Advance();
          if cbuf != Code('*') {
            return false;
          }
          var closed := SkipBlock();
          if !closed {
            return false;
          }
        } else {
          break;
        }
      }
      return true;
    }

    /** scan(): skip blanks and comments, then read one token. */
    method Scan() returns (tok: int)
      requires Valid()
      modifies this
      ensures Valid()
      ensures var g := Blank(input, old(at), old(lineNum), false);
        (g.Fail? ==> tok == S_ERROR) && (g.Stop? ==> lineNum == g.line && TokenRead(g.pos, tok))
    {
      var ok := SkipBlanks();
      if !ok {
        return S_ERROR;
      }
      if IsAlphaCode(cbuf) {
        tok := ReadName();
      } else if IsDigitCode(cbuf) {
        tok := ReadNumber();
      } else if cbuf == Code('\'') {
        tok := ReadString();
      } else {
        tok := ReadSymbol();
      }
    }

    /** get_linenum: the current line number, which after scan() is the
        line the token ended on. */
    method GetLinenum() returns (n: int)
      ensures n == lineNum
    {
      return lineNum;
    }
  }
}
