// The one-token-at-a-time scanner of iteration 1 (1/scan.c): the global
// look-ahead cbuf holds the character fgetc returned last, scan() skips
// blanks and comments, reads one token and leaves cbuf on the character
// after it.
module Scan1 {
  import opened Wrappers
  import opened Chars
  import opened Lpp
  import opened Stream

  /** check_keyword's answer for a name: the keytoken of the first entry
      spelled so, TNAME when there is none. */
  function KeywordId(ks: seq<Key>, name: string): (r: int)
    ensures r == TNAME || exists i :: 0 <= i < |ks| && ks[i].keyword == name && ks[i].keytoken == r
  {
    var k := FindKey(ks, name);
    if k < |ks| then ks[k].keytoken else TNAME
  }

  /** A spelled entry gives its token (the first one when several are
      spelled alike); a name no entry spells is TNAME. */
  lemma KeywordIdSpec(ks: seq<Key>, name: string)
    ensures (forall i :: 0 <= i < |ks| ==> ks[i].keyword != name) ==> KeywordId(ks, name) == TNAME
    ensures (exists i :: 0 <= i < |ks| && ks[i].keyword == name) ==>
      exists i :: 0 <= i < |ks| && ks[i].keyword == name && KeywordId(ks, name) == ks[i].keytoken &&
        forall j :: 0 <= j < i ==> ks[j].keyword != name
  {
    var k := FindKey(ks, name);
    if k < |ks| {
      assert ks[k].keyword == name;
    }
  }

  /** One line terminator as check_newline knows them. */
  predicate IsTerminator(t: string)
  {
    t == "\n" || t == "\r" || t == "\r\n" || t == "\n\r"
  }

  /** check_newline consumes exactly one terminator, and the longest one. */
  lemma NewlineConsumesOneTerminator(s: seq<char>, i: nat)
    requires i < |s| && (s[i] == '\r' || s[i] == '\n')
    ensures var e := BreakEnd(s, i, true);
      i < e <= |s| && IsTerminator(s[i..e]) && (e < |s| ==> !IsTerminator(s[i..e + 1]))
  {
    var e := BreakEnd(s, i, true);
    if e == i + 2 {
      assert s[i..e] == [s[i], s[i + 1]];
    } else {
      assert s[i..e] == [s[i]];
      if e < |s| {
        assert s[i..e + 1] == [s[i], s[i + 1]];
      }
    }
  }

  /** The scanner state: the file `input` with the look-ahead at position
      `at` (cbuf), the line numbers and the token attributes. `key` is
      the keyword table, which this iteration only declares. */
  class Scanner {
    const input: seq<char>
    const key: seq<Key>
    var at: nat
    var cbuf: int
    var lineNum: int
    var tokenLineNum: int
    var numAttr: int
    var stringAttr: string

    ghost predicate Valid()
      reads this
    {
      at <= |input| && cbuf == CodeAt(input, at)
    }

    /** init_scan after the file is open: the first character is read
        and counting starts at line 1. */
    constructor (input: seq<char>, key: seq<Key>)
      ensures Valid() && this.input == input && this.key == key
      ensures at == 0 && lineNum == 1
    {
      this.input := input;
      this.key := key;
      at := 0;
      cbuf := CodeAt(input, 0);
      lineNum := 1;
      tokenLineNum := 0;
      numAttr := 0;
      stringAttr := [];
    }

    /** cbuf = fgetc(fp). */
    method Advance()
      requires Valid()
      modifies this`at, this`cbuf
      ensures Valid() && at == Next(input, old(at))
    {
      at := Next(input, at);
      cbuf := CodeAt(input, at);
    }

    /** check_keyword on the name in string_attr. */
    method CheckKeyword() returns (t: int)
      ensures t == KeywordId(key, stringAttr)
    {
      var i := KeyIndex(key, stringAttr);
      if i < |key| {
        return key[i].keytoken;
      }
      return TNAME;
    }

    /** check_newline with cbuf on a line break. */
    method CheckNewline()
      requires Valid() && (cbuf == Code('\r') || cbuf == Code('\n'))
      modifies this`at, this`cbuf, this`lineNum
      ensures Valid() && at == BreakEnd(input, old(at), true) && lineNum == old(lineNum) + 1
    {
      var pair := false;
      if cbuf == Code('\r') {
        Advance();
        pair := cbuf == Code('\n');
      }
      if !pair && cbuf == Code('\n') {
        Advance();
        pair := cbuf == Code('\r');
      }
      if pair {
        Advance();
      }
      lineNum := lineNum + 1;
    }

    /** while ((cbuf = fgetc(fp)) != c) if (cbuf == EOF) fail: the
        look-ahead ends on the first c after it, if the file has one. */
    method SkipUntil(c: char) returns (found: bool)
      requires Valid()
      modifies this`at, this`cbuf
      ensures Valid()
      ensures found <==> Find(input, old(at) + 1, c).Some?
      ensures found ==> at == Find(input, old(at) + 1, c).value
    {
      ghost var f := Find(input, old(at) + 1, c);
      Advance();
      while cbuf != Code(c)
        invariant Valid() && Find(input, at, c) == f
        decreases |input| - at
      {
        if cbuf == EOF {
          return false;
        }
        Advance();
      }
      return true;
    }

    /** A `{` comment, with cbuf on the brace. */
    method SkipBrace() returns (ok: bool)
      requires Valid() && cbuf == Code('{')
      modifies this`at, this`cbuf
      ensures Valid() && (ok <==> BraceEnd(input, old(at)).Some?)
      ensures ok ==> at == BraceEnd(input, old(at)).value
    {
      ok := SkipUntil('}');
      if ok {
        Advance();
      }
    }

    /** A block comment, with cbuf on the star after the slash. */
    method SkipBlock() returns (ok: bool)
      requires Valid() && cbuf == Code('*')
      modifies this`at, this`cbuf
      ensures Valid() && (ok <==> BlockEnd(input, old(at)).Some?)
      ensures ok ==> at == BlockEnd(input, old(at)).value
    {
      ghost var r := BlockEnd(input, at);
      while true
        invariant Valid() && old(at) <= at && BlockEnd(input, at) == r
        decreases |input| - at
      {
        var found := SkipUntil('*');
        if !found {
          return false;
        }
        Advance();
        if cbuf == Code('/') {
          break;
        }
      }
      Advance();
      return true;
    }

    /** What scan() leaves after reading a name that starts at p. */
    ghost predicate NameRead(p: nat, tok: int)
      reads this
    {
      var n := AlnumFrom(input, p);
      p <= |input| &&
      if n < MAXSTRSIZE - 1 then
        tok == KeywordId(key, input[p..p + n]) && stringAttr == input[p..p + n] && at == p + n
      else
        tok == S_ERROR && at == p + MAXSTRSIZE - 2
    }

    /** What scan() leaves after reading a number that starts at p. */
    ghost predicate NumberRead(p: nat, tok: int)
      reads this
    {
      var n := DigitsFrom(input, p);
      if p > |input| then false
      else
        DigitsFromAreDigits(input, p);
        var v := DecimalValue(input[p..p + n]);
        if v <= MAXNUM then tok == TNUMBER && numAttr == v && at == p + n
        else tok == S_ERROR
    }

    /** What scan() leaves after reading a string whose opening quote is
        at p. */
    ghost predicate StringRead(p: nat, tok: int)
      reads this
    {
      var lit := LiteralFrom(input, p + 1);
      if lit.Closed? && |lit.text| < MAXSTRSIZE - 1 && CodeAt(input, lit.end) != EOF then
        tok == TSTRING && stringAttr == lit.text && at == lit.end
      else
        tok == S_ERROR
    }

    /** What scan() leaves after reading the token that starts at p. */
    ghost predicate TokenRead(p: nat, tok: int)
      reads this
    {
      var c := CodeAt(input, p);
      if IsAlphaCode(c) then NameRead(p, tok)
      else if IsDigitCode(c) then NumberRead(p, tok)
      else if c == Code('\'') then StringRead(p, tok)
      else p < |input| && tok == SymbolLex(input, p).tok && at == SymbolLex(input, p).end
    }

    /** The name loop: copy the alphanumeric run, failing once
        MAXSTRSIZE-1 characters are held (the look-ahead then stays on the
        last character copied). */
    method ReadAlnum() returns (text: string, ok: bool)
      requires Valid() && IsAlphaCode(cbuf)
      modifies this`at, this`cbuf
      ensures Valid()
      ensures var n := AlnumFrom(input, old(at));
        old(at) + n <= |input| && (ok <==> n < MAXSTRSIZE - 1) &&
        (ok ==> text == input[old(at)..old(at) + n] && at == old(at) + n) &&
        (!ok ==> at == old(at) + MAXSTRSIZE - 2)
    {
      ghost var p := at;
      ghost var n := AlnumFrom(input, p);
      AlnumFromFacts(input, p);
      text := [];
      while true
        invariant Valid() && p <= at < p + n && text == input[p..at] && |text| < MAXSTRSIZE - 1
        decreases |input| - at
      {
        text := text + [input[at]];
        if |text| >= MAXSTRSIZE - 1 {
          return text, false;
        }
        Advance();
        if !IsAlnumCode(cbuf) {
          break;
        }
      }
      ok := true;
    }

    /** A name: the run, then check_keyword on it. */
    method ReadName() returns (tok: int)
      requires Valid() && IsAlphaCode(cbuf)
      modifies this`at, this`cbuf, this`stringAttr
      ensures Valid() && NameRead(old(at), tok)
    {
      var text, ok := ReadAlnum();
      stringAttr := text;
      if !ok {
        return S_ERROR;
      }
      tok := CheckKeyword();
    }

    /** The number loop: accumulate the value digit by digit, failing as
        soon as it exceeds MAXNUM. */
    method ReadNumber() returns (tok: int)
      requires Valid() && IsDigitCode(cbuf)
      modifies this`at, this`cbuf, this`numAttr
      ensures Valid() && NumberRead(old(at), tok)
    {
      ghost var p := at;
      ghost var n := DigitsFrom(input, p);
      DigitsFromFacts(input, p);
      DigitsFromAreDigits(input, p);
      var num := 0;
      while true
        invariant Valid() && p <= at < p + n <= |input|
        invariant AllDigits(input[p..at]) && num == DecimalValue(input[p..at]) <= MAXNUM
        decreases |input| - at
      {
        SliceValueStep(input, p, at, p + n);
        num := num * 10 + DigitValue(input[at]);
        if num > MAXNUM {
          numAttr := num;
          return S_ERROR;
        }
        Advance();
        if !IsDigitCode(cbuf) {
          break;
        }
      }
      numAttr := num;
      return TNUMBER;
    }

    /** The string loop, with cbuf on the opening quote: a doubled quote
        stores one quote; too long a text, the end of the file inside the
        literal, or the end of the file right after it fails. */
    method ReadString() returns (tok: int)
      requires Valid() && cbuf == Code('\'')
      modifies this`at, this`cbuf, this`stringAttr
      ensures Valid() && StringRead(old(at), tok)
    {
      ghost var lit := LiteralFrom(input, at + 1);
      Advance();
      var text: string := [];
      while true
        invariant Valid() && lit == Prepend(text, LiteralFrom(input, at))
        decreases |input| - at
      {
        if |text| >= MAXSTRSIZE - 1 {
          return S_ERROR;
        }
        if cbuf == EOF {
          return S_ERROR;
        }
        if cbuf == Code('\'') {
          Advance();
          if cbuf != Code('\'') {
            break;
          }
        }
        PrependTwice(text, [input[at]], LiteralFrom(input, at + 1));
        text := text + [input[at]];
        Advance();
      }
      if cbuf == EOF {
        return S_ERROR;
      }
      stringAttr := text;
      return TSTRING;
    }

    /** The symbol switch, with cbuf on a character that starts no name,
        number or string. */
    method ReadSymbol() returns (tok: int)
      requires Valid() && cbuf != EOF
      modifies this`at, this`cbuf
      ensures Valid() && at <= |input| && old(at) < |input|
      ensures tok == SymbolLex(input, old(at)).tok && at == SymbolLex(input, old(at)).end
    {
      var c := cbuf;
      Advance();
      if c == Code('+') { return TPLUS; }
      if c == Code('-') { return TMINUS; }
      if c == Code('*') { return TSTAR; }
      if c == Code('=') { return TEQUAL; }
      if c == Code('(') { return TLPAREN; }
      if c == Code(')') { return TRPAREN; }
      if c == Code('[') { return TLSQPAREN; }
      if c == Code(']') { return TRSQPAREN; }
      if c == Code('.') { return TDOT; }
      if c == Code(',') { return TCOMMA; }
      if c == Code(';') { return TSEMI; }
      if c == Code('<') {
        if cbuf == Code('=') {
          Advance();
          return TLEEQ;
        } else if cbuf == Code('>') {
          Advance();
          return TNOTEQ;
        }
        return TLE;
      }
      if c == Code('>') {
        if cbuf == Code('=') {
          Advance();
          return TGREQ;
        }
        return TGR;
      }
      if c == Code(':') {
        if cbuf == Code('=') {
          Advance();
          return TASSIGN;
        }
        return TCOLON;
      }
      return S_ERROR;
    }

    /** The top of scan()'s loop: blanks, line breaks and comments are
        skipped until a character that starts a token; false where scan()
        returns S_ERROR instead. */
    method SkipBlanks() returns (ok: bool)
      requires Valid()
      modifies this`at, this`cbuf, this`lineNum
      ensures Valid()
      ensures var g := Blank(input, old(at), old(lineNum), true);
        (ok <==> g.Stop?) && (ok ==> at == g.pos && lineNum == g.line && at < |input|)
    {
      ghost var g := Blank(input, at, lineNum, true);
      while true
        invariant Valid() && Blank(input, at, lineNum, true) == g
        decreases |input| - at
      {
        if cbuf == EOF {
          return false;
        }
        if cbuf == Code(' ') || cbuf == Code('\t') {
          Advance();
        } else if cbuf == Code('\n') || cbuf == Code('\r') {
          CheckNewline();
        } else if cbuf == Code('{') {
          var closed := SkipBrace();
          if !closed {
            return false;
          }
        } else if cbuf == Code('/') {
          Advance();
          if cbuf != Code('*') {
            return false;
          }
          var closed := SkipBlock();
          if !closed {
            return false;
          }
        } else {
          break;
        }
      }
      return true;
    }

    /** scan(): record the line, skip blanks and comments, then read one
        token. */
    method Scan() returns (tok: int)
      requires Valid()
      modifies this
      ensures Valid() && tokenLineNum == old(lineNum)
      ensures var g := Blank(input, old(at), old(lineNum), true);
        (g.Fail? ==> tok == S_ERROR) && (g.Stop? ==> lineNum == g.line && TokenRead(g.pos, tok))
    {
      tokenLineNum := lineNum;
      var ok := SkipBlanks();
      if !ok {
        return S_ERROR;
      }
      if IsAlphaCode(cbuf) {
        tok := ReadName();
      } else if IsDigitCode(cbuf) {
        tok := ReadNumber();
      } else if cbuf == Code('\'') {
        tok := ReadString();
      } else {
        tok := ReadSymbol();
      }
    }

    /** get_linenum: the line recorded when the last scan() began. */
    method GetLinenum() returns (n: int)
      ensures n == tokenLineNum
    {
      return tokenLineNum;
    }
  }
}
