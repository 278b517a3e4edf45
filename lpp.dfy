// The shared vocabulary of the compiler: token ids, token kinds, the token
// record, type kinds and the TYPE / ID / LINE records of the symbol tables.
module Lpp {
  import opened Wrappers

  const MAXSTRSIZE := 1024
  const MAXNUM := 32768
  const NUMOFTOKEN := 49
  const KEYWORDSIZE := 28
  const PUNCTSIZE := 18
  const S_ERROR := -1
  const ERROR := -1
  const NORMAL := 0
  const HASHSIZE := 1000

  // TokenID: the enumeration starts at 1 and counts up.
  const TNAME := 1
  const TPROGRAM := 2
  const TVAR := 3
  const TARRAY := 4
  const TOF := 5
  const TBEGIN := 6
  const TEND := 7
  const TIF := 8
  const TTHEN := 9
  const TELSE := 10
  const TPROCEDURE := 11
  const TRETURN := 12
  const TCALL := 13
  const TWHILE := 14
  const TDO := 15
  const TNOT := 16
  const TOR := 17
  const TDIV := 18
  const TAND := 19
  const TCHAR := 20
  const TINTEGER := 21
  const TBOOLEAN := 22
  const TREADLN := 23
  const TWRITELN := 24
  const TTRUE := 25
  const TFALSE := 26
  const TNUMBER := 27
  const TSTRING := 28
  const TPLUS := 29
  const TMINUS := 30
  const TSTAR := 31
  const TEQUAL := 32
  const TNOTEQ := 33
  const TLE := 34
  const TLEEQ := 35
  const TGR := 36
  const TGREQ := 37
  const TLPAREN := 38
  const TRPAREN := 39
  const TLSQPAREN := 40
  const TRSQPAREN := 41
  const TASSIGN := 42
  const TDOT := 43
  const TCOMMA := 44
  const TCOLON := 45
  const TSEMI := 46
  const TREAD := 47
  const TWRITE := 48
  const TBREAK := 49
  const TERROR := 50

  /** The ids run 1, 2, ..., NUMOFTOKEN in declaration order without gaps, and
      TERROR follows the last of them. */
  lemma TokenIdsConsecutive()
    ensures TNAME == 1 && TBREAK == NUMOFTOKEN
    ensures TPROGRAM == TNAME + 1 && TVAR == TPROGRAM + 1 && TARRAY == TVAR + 1 && TOF == TARRAY + 1 && TBEGIN == TOF + 1
    ensures TEND == TBEGIN + 1 && TIF == TEND + 1 && TTHEN == TIF + 1 && TELSE == TTHEN + 1 && TPROCEDURE == TELSE + 1
    ensures TRETURN == TPROCEDURE + 1 && TCALL == TRETURN + 1 && TWHILE == TCALL + 1 && TDO == TWHILE + 1 && TNOT == TDO + 1
    ensures TOR == TNOT + 1 && TDIV == TOR + 1 && TAND == TDIV + 1 && TCHAR == TAND + 1 && TINTEGER == TCHAR + 1
    ensures TBOOLEAN == TINTEGER + 1 && TREADLN == TBOOLEAN + 1 && TWRITELN == TREADLN + 1 && TTRUE == TWRITELN + 1 && TFALSE == TTRUE + 1
    ensures TNUMBER == TFALSE + 1 && TSTRING == TNUMBER + 1 && TPLUS == TSTRING + 1 && TMINUS == TPLUS + 1 && TSTAR == TMINUS + 1
    ensures TEQUAL == TSTAR + 1 && TNOTEQ == TEQUAL + 1 && TLE == TNOTEQ + 1 && TLEEQ == TLE + 1 && TGR == TLEEQ + 1
    ensures TGREQ == TGR + 1 && TLPAREN == TGREQ + 1 && TRPAREN == TLPAREN + 1 && TLSQPAREN == TRPAREN + 1 && TRSQPAREN == TLSQPAREN + 1
    ensures TASSIGN == TRSQPAREN + 1 && TDOT == TASSIGN + 1 && TCOMMA == TDOT + 1 && TCOLON == TCOMMA + 1 && TSEMI == TCOLON + 1
    ensures TREAD == TSEMI + 1 && TWRITE == TREAD + 1 && TBREAK == TWRITE + 1 && TERROR == TBREAK + 1
  {
  }

  datatype TokenKind = TK_IDENT | TK_PUNCT | TK_KEYWORD | TK_STR | TK_NUM | TK_EOF

  /** A token; `str` is "" where the C field is NULL. */
  datatype Token = Token(kind: TokenKind, id: int, len: int, lineNo: int, str: string,
                         num: int, atBol: bool, hasSpace: bool)

  // TYPE_KIND
  const TPINT := 0
  const TPCHAR := 1
  const TPBOOL := 2
  const TPARRAYINT := 3
  const TPARRAYCHAR := 4
  const TPARRAYBOOL := 5
  const TPPROC := 6
  const TPRERROR := 7

  /** The ids of the 28 reserved words: TPROGRAM to TFALSE, and TREAD,
      TWRITE and TBREAK. */
  predicate IsKeywordId(id: int)
  {
    (TPROGRAM <= id <= TFALSE) || (TREAD <= id <= TBREAK)
  }

  /** The TYPE record: `etp` is the element type of an array, `paratp` links a
      procedure's parameter type list; None stands for NULL. */
  datatype Type = Type(ttype: int, arraysize: int, etp: Option<Type>, paratp: Option<Type>)

  /** The ID record of the cross-reference tables; `irefp` is the LINE list of
      reference line numbers in list order. */
  datatype Id = Id(name: string, procname: Option<string>, itp: Option<Type>, ispara: bool,
                   defline: int, irefp: seq<int>)

  /** An entry of a keyword or punctuation table (struct KEY). */
  datatype Key = Key(keyword: string, keytoken: int)

  /** Index of the first table entry spelled `s`, or |table| when there is none. */
  function FindKey(table: seq<Key>, s: string): (i: nat)
    ensures i <= |table|
    ensures i < |table| ==> table[i].keyword == s
    ensures forall j :: 0 <= j < i ==> table[j].keyword != s
  {
    if table == [] then 0
    else if table[0].keyword == s then 0
    else 1 + FindKey(table[1..], s)
  }

  /** The keyword search loop (checkKeyword, check_keyword): strcmp against
      each entry in order. */
  method KeyIndex(table: seq<Key>, s: string) returns (i: nat)
    ensures i == FindKey(table, s)
  {
    i := 0;
    ghost var k := FindKey(table, s);
    while i < |table|
      invariant 0 <= i <= k
    {
      if s == table[i].keyword {
        return;
      }
      i := i + 1;
    }
  }

  // Operator and type classes of the parsers (isRelOp, isMulOp, isAddOp, isStdType).

  /** The six relational operators are the consecutive ids TEQUAL to TGREQ. */
  predicate IsRelOp(id: int)
    ensures IsRelOp(id) <==> TEQUAL <= id <= TGREQ
  {
    id == TEQUAL || id == TNOTEQ || id == TLE || id == TLEEQ || id == TGR || id == TGREQ
  }

  /** No multiplying operator is a relational one. */
  predicate IsMulOp(id: int)
    ensures IsMulOp(id) ==> !IsRelOp(id)
  {
    id == TSTAR || id == TDIV || id == TAND
  }

  /** No adding operator is a relational or a multiplying one. */
  predicate IsAddOp(id: int)
    ensures IsAddOp(id) ==> !IsRelOp(id) && !IsMulOp(id)
  {
    id == TPLUS || id == TMINUS || id == TOR
  }

  predicate IsStdType(id: int)
  {
    id == TINTEGER || id == TBOOLEAN || id == TCHAR
  }
}
