// Token-level facts shared by the three recursive-descent parsers (2/parse.c,
// 03/parse.c and 4/parse.c). Each parser walks the scanner's token list
// through a global `cur`; the models keep the list as a sequence and `cur` as
// an index into it. The list ends with the EOF token, whose id 0 matches no
// grammar symbol.
module Grammar {
  import opened Wrappers
  import opened Lpp
  import opened Symbols

  /** The id of token `i`, and 0 (the EOF token's id) past the end. */
  function IdAt(toks: seq<Token>, i: int): int
  {
    if 0 <= i < |toks| then toks[i].id else 0
  }

  /** `array [ NUMBER ] of standard-type` at position `i`. */
  predicate ArrayTypeAt(toks: seq<Token>, i: int)
  {
    IdAt(toks, i) == TARRAY && IdAt(toks, i + 1) == TLSQPAREN && IdAt(toks, i + 2) == TNUMBER &&
    IdAt(toks, i + 3) == TRSQPAREN && IdAt(toks, i + 4) == TOF && IsStdType(IdAt(toks, i + 5))
  }

  /** toks[p..q] is `NAME {, NAME}`, read from its right end. */
  ghost predicate NameListAt(toks: seq<Token>, p: int, q: int)
    decreases q - p
  {
    p < q && IdAt(toks, q - 1) == TNAME &&
    (q == p + 1 || (q >= p + 3 && IdAt(toks, q - 2) == TCOMMA && NameListAt(toks, p, q - 2)))
  }

  /** A name list starts with a name and holds only names and commas. */
  lemma {:induction false} NameListTokens(toks: seq<Token>, p: int, q: int)
    requires NameListAt(toks, p, q)
    ensures IdAt(toks, p) == TNAME
    ensures forall j :: p <= j < q ==> IdAt(toks, j) == TNAME || IdAt(toks, j) == TCOMMA
    decreases q - p
  {
    if q > p + 1 {
      NameListTokens(toks, p, q - 2);
    }
  }

  /** The tokens a factor can start with (the cases of parseFactor's switch). */
  predicate StartsFactor(id: int)
  {
    id == TNAME || id == TNUMBER || id == TFALSE || id == TTRUE || id == TSTRING ||
    id == TLPAREN || id == TNOT || IsStdType(id)
  }

  /** The tokens parseStatement dispatches on; any other token is the empty statement. */
  predicate StartsStatement(id: int)
  {
    id == TNAME || id == TIF || id == TWHILE || id == TBREAK || id == TCALL || id == TRETURN ||
    id == TREAD || id == TREADLN || id == TWRITE || id == TWRITELN || id == TBEGIN
  }

  /** The name tokens among toks[p..q], in order, as the stack elements
      parseVarNames pushes for them (line and spelling). */
  ghost function NamesIn(toks: seq<Token>, p: int, q: int): seq<Var>
    decreases q - p
  {
    if p >= q then []
    else (if IdAt(toks, p) == TNAME then [Var(toks[p].lineNo, toks[p].str)] else []) + NamesIn(toks, p + 1, q)
  }

  /** Extending the range by one token adds that token's name, if it is one. */
  lemma {:induction false} NamesInSnoc(toks: seq<Token>, p: int, q: int)
    requires p <= q
    ensures NamesIn(toks, p, q + 1) ==
      NamesIn(toks, p, q) + (if IdAt(toks, q) == TNAME then [Var(toks[q].lineNo, toks[q].str)] else [])
    decreases q - p
  {
    if p < q {
      NamesInSnoc(toks, p + 1, q);
    }
  }

  /** Pushing the name at `q` onto a stack that holds the names of
      toks[p..q] gives the names of toks[p..q+1]. */
  lemma NamesInPush(toks: seq<Token>, p: int, q: int, before: seq<Var>, stack: seq<Var>)
    requires p <= q < |toks| && IdAt(toks, q) == TNAME && stack == before + NamesIn(toks, p, q)
    ensures stack + [Var(toks[q].lineNo, toks[q].str)] == before + NamesIn(toks, p, q + 1)
  {
    NamesInSnoc(toks, p, q);
  }

  /** A token that is not a name adds nothing. */
  lemma NamesInSkip(toks: seq<Token>, p: int, q: int)
    requires p <= q && IdAt(toks, q) != TNAME
    ensures NamesIn(toks, p, q + 1) == NamesIn(toks, p, q)
  {
    NamesInSnoc(toks, p, q);
  }

  /** `n` copies of `x`. */
  function Repeat(x: int, n: nat): (r: seq<int>)
    ensures |r| == n && forall i :: 0 <= i < n ==> r[i] == x
  {
    if n == 0 then [] else [x] + Repeat(x, n - 1)
  }

  /** The kind of the first standard type keyword in toks[k..q]: the type a
      formal parameter name at `k` is declared with. */
  ghost function KindAfter(toks: seq<Token>, k: int, q: int): int
    decreases q - k
  {
    if k >= q then ERROR
    else if IsStdType(IdAt(toks, k)) then DecodeIdToKind(IdAt(toks, k), false)
    else KindAfter(toks, k + 1, q)
  }

  /** The formal parameter kinds of toks[p..q]: one per name, in source
      order, each the kind of its group's type. */
  ghost function FormalKinds(toks: seq<Token>, p: int, q: int): seq<int>
    decreases q - p
  {
    if p >= q then []
    else (if IdAt(toks, p) == TNAME then [KindAfter(toks, p, q)] else []) + FormalKinds(toks, p + 1, q)
  }

  /** The type a name finds before a standard type keyword at m - 1 does not
      depend on what follows. */
  lemma {:induction false} KindAfterExtend(toks: seq<Token>, k: int, m: int, q: int)
    requires k < m <= q && IsStdType(IdAt(toks, m - 1))
    ensures KindAfter(toks, k, m) == KindAfter(toks, k, q)
    decreases m - k
  {
    if !IsStdType(IdAt(toks, k)) {
      KindAfterExtend(toks, k + 1, m, q);
    }
  }

  /** The parameter kinds split at a position just behind a type keyword. */
  lemma {:induction false} FormalKindsSplit(toks: seq<Token>, p: int, m: int, q: int)
    requires p <= m <= q && (p == m || IsStdType(IdAt(toks, m - 1)))
    ensures FormalKinds(toks, p, q) == FormalKinds(toks, p, m) + FormalKinds(toks, m, q)
    decreases m - p
  {
    if p < m {
      var head := if IdAt(toks, p) == TNAME then [KindAfter(toks, p, m)] else [];
      if IdAt(toks, p) == TNAME {
        KindAfterExtend(toks, p, m, q);
      }
      assert FormalKinds(toks, p, q) == head + FormalKinds(toks, p + 1, q);
      assert FormalKinds(toks, p, m) == head + FormalKinds(toks, p + 1, m);
      FormalKindsSplit(toks, p + 1, m, q);
      assert head + (FormalKinds(toks, p + 1, m) + FormalKinds(toks, m, q)) ==
        (head + FormalKinds(toks, p + 1, m)) + FormalKinds(toks, m, q);
    }
  }

  /** A name before the colon of `names : type` has that type. */
  lemma {:induction false} KindAfterGroup(toks: seq<Token>, k: int, c: int)
    requires k <= c && IdAt(toks, c) == TCOLON && IsStdType(IdAt(toks, c + 1))
    requires forall j :: k <= j < c ==> IdAt(toks, j) == TNAME || IdAt(toks, j) == TCOMMA
    ensures KindAfter(toks, k, c + 2) == DecodeIdToKind(IdAt(toks, c + 1), false)
    decreases c - k
  {
    if k < c {
      KindAfterGroup(toks, k + 1, c);
    } else {
      assert KindAfter(toks, k + 1, c + 2) == DecodeIdToKind(IdAt(toks, c + 1), false);
    }
  }

  /** A group `names : type` contributes its type once per name. */
  lemma {:induction false} FormalKindsGroup(toks: seq<Token>, g: int, c: int)
    requires g <= c && IdAt(toks, c) == TCOLON && IsStdType(IdAt(toks, c + 1))
    requires forall j :: g <= j < c ==> IdAt(toks, j) == TNAME || IdAt(toks, j) == TCOMMA
    ensures FormalKinds(toks, g, c + 2) == Repeat(DecodeIdToKind(IdAt(toks, c + 1), false), |NamesIn(toks, g, c)|)
    decreases c - g
  {
    var kind := DecodeIdToKind(IdAt(toks, c + 1), false);
    if g < c {
      FormalKindsGroup(toks, g + 1, c);
      if IdAt(toks, g) == TNAME {
        KindAfterGroup(toks, g, c);
      }
    } else {
      assert FormalKinds(toks, c + 1, c + 2) == [];
    }
  }

  /** The same for a group `NAME {, NAME} : type` as parseVarNames reads it,
      pushing its names onto a stack that held `before`. */
  lemma FormalKindsOfGroup(toks: seq<Token>, g: int, c: int, before: seq<Var>, stack: seq<Var>)
    requires NameListAt(toks, g, c) && IdAt(toks, c) == TCOLON && IsStdType(IdAt(toks, c + 1))
    requires stack == before + NamesIn(toks, g, c)
    ensures before == [] ==> FormalKinds(toks, g, c + 2) == Repeat(DecodeIdToKind(IdAt(toks, c + 1), false), |stack|)
  {
    NameListTokens(toks, g, c);
    FormalKindsGroup(toks, g, c);
  }

  /** Across the `;` between two groups: the kinds of the groups so far,
      then those of the groups after the `;`. */
  lemma FormalKindsAcrossSemi(toks: seq<Token>, p: int, last: int, q: int)
    requires p < last < q && IsStdType(IdAt(toks, last - 1)) && IdAt(toks, last) == TSEMI
    ensures FormalKinds(toks, p, q) == FormalKinds(toks, p, last) + FormalKinds(toks, last + 1, q)
  {
    FormalKindsSplit(toks, p, last, q);
    assert FormalKinds(toks, last, q) == FormalKinds(toks, last + 1, q);
  }

  /** The type record parseType builds for the type at `i`: a standard type
      is its kind alone; an array is an outer record of kind -1 whose element
      record carries the array kind and the size. */
  function TypeDenoted(toks: seq<Token>, i: nat): (t: Type)
    requires IsStdType(IdAt(toks, i)) || ArrayTypeAt(toks, i)
    ensures IsStdType(IdAt(toks, i)) ==> IsStdKind(t.ttype) && t.etp.None?
    ensures !IsStdType(IdAt(toks, i)) ==>
      t.ttype == -1 && t.etp.Some? && t.etp.value.arraysize == toks[i + 2].num &&
      DecodeKindToId(t.etp.value.ttype) == Some(IdAt(toks, i + 5))
  {
    DecodeRoundTrip(if IsStdType(IdAt(toks, i)) then IdAt(toks, i) else IdAt(toks, i + 5), !IsStdType(IdAt(toks, i)));
    if IsStdType(IdAt(toks, i)) then Type(DecodeIdToKind(IdAt(toks, i), false), -1, None, None)
    else Type(-1, -1, Some(Type(DecodeIdToKind(IdAt(toks, i + 5), true), toks[i + 2].num, None, None)), None)
  }

  /** The kinds read before a `;` and those read after it join into the
      kinds of the whole parameter list. */
  lemma FormalKindsJoin(toks: seq<Token>, p: int, last: int, q: int, before: seq<int>, after: seq<int>)
    requires p < last < q && IsStdType(IdAt(toks, last - 1)) && IdAt(toks, last) == TSEMI
    requires before == FormalKinds(toks, p, last) && after == FormalKinds(toks, last + 1, q)
    ensures before + after == FormalKinds(toks, p, q)
  {
    FormalKindsAcrossSemi(toks, p, last, q);
  }
}
