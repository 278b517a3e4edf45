// The type rules of the expression productions of 4/parse.c, and the
// outcome of the statements those rules decide, as functions of the token
// list. Each function reads the production that starts at a
// position the way the C function does: the same branches, the same
// TPRERROR/ERROR results, and the same writes to the tables. The parser's
// methods in Parse4 are proved to compute them. The rules the functions
// enforce are then stated and proved as lemmas about them.
//
// The state the C functions read while typing an expression is the token
// list, the cursor, the symbol tables (lookupAndAddIref appends a reference
// line to each variable it finds) and whether the last type parsed, `type`,
// is NULL: a constant or a cast writes its kind through that pointer. That
// write changes only the kind and never the NULL test, so a boolean `ht`
// ("a type has been parsed") stands for the pointer.
module Typing4 {
  import opened Wrappers
  import opened Lpp
  import opened HashMap
  import opened Symbols
  import opened Grammar

  /** The result of one production: the TYPE_KIND (or ERROR, or TPRERROR) it
      returns, the cursor after it, whether the C program crashed on the
      way, and the symbol tables after it. */
  datatype Typing = Typing(kind: int, end: nat, halt: bool, scopes: Scopes)

  /** The facts every typing function keeps: the cursor does not move back
      or leave the list, a crash returns ERROR, and the tables keep their
      size. */
  predicate TypingOk(toks: seq<Token>, p: nat, t: Typing)
  {
    p <= t.end <= |toks| && (t.halt ==> t.kind == ERROR) && ScopesOk(t.scopes)
  }

  /** parseVar: `NAME [ [ expression ] ]`. The name is looked up before it is
      consumed; an unknown name is ERROR with nothing consumed; an index must
      be integer, and the element kind is read through the entry's `etp`,
      which crashes when the entry has no such node. */
  ghost function VarKind(toks: seq<Token>, p: nat, sc: Scopes, ht: bool): (t: Typing)
    requires p <= |toks| && ScopesOk(sc)
    ensures TypingOk(toks, p, t)
    decreases |toks| - p, 1
  {
    if IdAt(toks, p) != TNAME then Typing(ERROR, p, false, sc)
    else
      var found := Symbols.LookupAndAddIref(sc, toks[p].str, toks[p].lineNo);
      if found.0.None? then Typing(ERROR, p, false, found.1)
      else EntryKind(toks, p + 1, found.0.value, found.1, ht)
  }

  /** The rest of parseVar once the name before q has been found as `e`. */
  ghost function EntryKind(toks: seq<Token>, q: nat, e: Id, sc: Scopes, ht: bool): (t: Typing)
    requires q <= |toks| && ScopesOk(sc)
    ensures TypingOk(toks, q, t)
    decreases |toks| - q, 0
  {
    if IdAt(toks, q) == TLSQPAREN then
      var x := ExprKind(toks, q + 1, sc, ht);
      if x.halt then x
      else if x.kind == TPRERROR || x.kind != TPINT || IdAt(toks, x.end) != TRSQPAREN then
        Typing(ERROR, x.end, false, x.scopes)
      else if e.itp.None? || e.itp.value.etp.None? then Typing(ERROR, x.end + 1, true, x.scopes)
      else Typing(e.itp.value.etp.value.ttype, x.end + 1, false, x.scopes)
    else if e.itp.None? then Typing(ERROR, q, true, sc)
    else Typing(e.itp.value.ttype, q, false, sc)
  }

  /** The cast case of parseFactor, `standard-type ( expression )`: the
      keyword's kind is written through `type` (a crash when none has been
      parsed); a missing parenthesis or an operand that is not of a standard
      kind is TPRERROR; otherwise the kind is the keyword's. */
  ghost function CastKind(toks: seq<Token>, p: nat, sc: Scopes, ht: bool): (t: Typing)
    requires p <= |toks| && ScopesOk(sc) && IsStdType(IdAt(toks, p))
    ensures TypingOk(toks, p, t)
    decreases |toks| - p, 2
  {
    if !ht then Typing(ERROR, p, true, sc)
    else if IdAt(toks, p + 1) != TLPAREN then Typing(TPRERROR, p + 1, false, sc)
    else
      var e := ExprKind(toks, p + 2, sc, ht);
      if e.halt || e.kind == TPRERROR then e
      else if !IsStdKind(e.kind) || IdAt(toks, e.end) != TRPAREN then Typing(TPRERROR, e.end, false, e.scopes)
      else Typing(DecodeIdToKind(IdAt(toks, p), false), e.end + 1, false, e.scopes)
  }

  /** parseFactor: a variable, a constant (whose kind is written through
      `type`), `( expression )`, `not factor` with a boolean operand, or a
      cast; any other token is ERROR with nothing consumed. */
  ghost function FactorKind(toks: seq<Token>, p: nat, sc: Scopes, ht: bool): (t: Typing)
    requires p <= |toks| && ScopesOk(sc)
    ensures TypingOk(toks, p, t)
    decreases |toks| - p, 3
  {
    var id := IdAt(toks, p);
    if id == TNAME then VarKind(toks, p, sc, ht)
    else if id == TNUMBER || id == TFALSE || id == TTRUE || id == TSTRING then
      if !ht then Typing(ERROR, p, true, sc) else Typing(DecodeIdToKind(id, false), p + 1, false, sc)
    else if id == TLPAREN then
      var e := ExprKind(toks, p + 1, sc, ht);
      if e.halt || e.kind == TPRERROR then e
      else if IdAt(toks, e.end) != TRPAREN then Typing(ERROR, e.end, false, e.scopes)
      else Typing(e.kind, e.end + 1, false, e.scopes)
    else if id == TNOT then
      var f := FactorKind(toks, p + 1, sc, ht);
      if f.halt || f.kind == TPRERROR then f
      else if f.kind != TPBOOL then Typing(ERROR, f.end, false, f.scopes)
      else f
    else if IsStdType(id) then CastKind(toks, p, sc, ht)
    else Typing(ERROR, p, false, sc)
  }

  /** The kind a multiplying operator needs on its left: boolean for `and`,
      integer for `*` and `div`. */
  predicate MulFits(op: int, k: int)
  {
    if op == TAND then k == TPBOOL else k == TPINT
  }

  /** The kind an adding operator needs on its right: boolean for `or`,
      integer for `+` and `-`. */
  function AddKind(op: int): int
  {
    if op == TOR then TPBOOL else TPINT
  }

  /** The loop of parseTerm from q, with `r` the kind of the first factor: each
      mul-op is followed by a factor (TPRERROR there becomes ERROR), and the
      operator is checked against `r`, not against the factor. */
  ghost function TermRest(toks: seq<Token>, q: nat, r: int, sc: Scopes, ht: bool): (t: Typing)
    requires q <= |toks| && ScopesOk(sc)
    ensures TypingOk(toks, q, t)
    decreases |toks| - q, 4
  {
    var op := IdAt(toks, q);
    if !IsMulOp(op) then Typing(r, q, false, sc)
    else
      var g := FactorKind(toks, q + 1, sc, ht);
      if g.halt then g
      else if g.kind == TPRERROR then Typing(ERROR, g.end, false, g.scopes)
      else if !MulFits(op, r) then Typing(TPRERROR, g.end, false, g.scopes)
      else TermRest(toks, g.end, r, g.scopes, ht)
  }

  /** parseTerm: `factor {mul-op factor}`. */
  ghost function TermKind(toks: seq<Token>, p: nat, sc: Scopes, ht: bool): (t: Typing)
    requires p <= |toks| && ScopesOk(sc)
    ensures TypingOk(toks, p, t)
    decreases |toks| - p, 5
  {
    var f := FactorKind(toks, p, sc, ht);
    if f.halt then f
    else if f.kind == TPRERROR then Typing(ERROR, f.end, false, f.scopes)
    else TermRest(toks, f.end, f.kind, f.scopes, ht)
  }

  /** The loop of parseSimpleExpression from q, with `r` the kind so far:
      each add-op is followed by a term, which must be of the operator's
      kind. */
  ghost function SimpleRest(toks: seq<Token>, q: nat, r: int, sc: Scopes, ht: bool): (t: Typing)
    requires q <= |toks| && ScopesOk(sc)
    ensures TypingOk(toks, q, t)
    decreases |toks| - q, 6
  {
    var op := IdAt(toks, q);
    if !IsAddOp(op) then Typing(r, q, false, sc)
    else
      var u := TermKind(toks, q + 1, sc, ht);
      if u.halt || u.kind == TPRERROR then u
      else if AddKind(op) != u.kind then Typing(ERROR, u.end, false, u.scopes)
      else SimpleRest(toks, u.end, r, u.scopes, ht)
  }

  /** parseSimpleExpression: `[+|-] term {add-op term}`; a sign needs an
      integer term. */
  ghost function SimpleKind(toks: seq<Token>, p: nat, sc: Scopes, ht: bool): (t: Typing)
    requires p <= |toks| && ScopesOk(sc)
    ensures TypingOk(toks, p, t)
    decreases |toks| - p, 7
  {
    var signed := IdAt(toks, p) == TPLUS || IdAt(toks, p) == TMINUS;
    var u := TermKind(toks, if signed then p + 1 else p, sc, ht);
    if u.halt || u.kind == TPRERROR then u
    else if signed && u.kind != TPINT then Typing(ERROR, u.end, false, u.scopes)
    else SimpleRest(toks, u.end, u.kind, u.scopes, ht)
  }

  /** The loop of parseExpression from q: each rel-op is followed by a simple
      expression, and the kind becomes boolean. */
  ghost function ExprRest(toks: seq<Token>, q: nat, r: int, sc: Scopes, ht: bool): (t: Typing)
    requires q <= |toks| && ScopesOk(sc)
    ensures TypingOk(toks, q, t)
    decreases |toks| - q, 8
  {
    if !IsRelOp(IdAt(toks, q)) then Typing(r, q, false, sc)
    else
      var s := SimpleKind(toks, q + 1, sc, ht);
      if s.halt || s.kind == TPRERROR then s
      else ExprRest(toks, s.end, TPBOOL, s.scopes, ht)
  }

  /** parseExpression: `simple {rel-op simple}`. */
  ghost function ExprKind(toks: seq<Token>, p: nat, sc: Scopes, ht: bool): (t: Typing)
    requires p <= |toks| && ScopesOk(sc)
    ensures TypingOk(toks, p, t)
    decreases |toks| - p, 9
  {
    var s := SimpleKind(toks, p, sc, ht);
    if s.halt || s.kind == TPRERROR then s
    else ExprRest(toks, s.end, s.kind, s.scopes, ht)
  }

  /** A typing that returns a kind: no crash, no ERROR, no TPRERROR. */
  predicate Typed(t: Typing)
  {
    !t.halt && t.kind != ERROR && t.kind != TPRERROR
  }

  // The type rules.

  /** parseVar: a token other than a name, and an unknown name, are ERROR
      with nothing consumed and the tables as they were; a plain name has
      its entry's kind; an indexed name needs an integer index and a closing
      bracket, and has the element kind of its entry. */
  lemma VarKindRules(toks: seq<Token>, p: nat, sc: Scopes, ht: bool)
    requires p <= |toks| && ScopesOk(sc)
    ensures var t := VarKind(toks, p, sc, ht);
      (IdAt(toks, p) != TNAME ==> t == Typing(ERROR, p, false, sc)) &&
      (IdAt(toks, p) == TNAME && Visible(sc, toks[p].str).None? ==> t == Typing(ERROR, p, false, sc)) &&
      (IdAt(toks, p) == TNAME && IdAt(toks, p + 1) != TLSQPAREN && Visible(sc, toks[p].str).Some? ==>
         var e := Visible(sc, toks[p].str).value;
         t.end == p + 1 && (t.halt <==> e.itp.None?) && (!t.halt ==> t.kind == e.itp.value.ttype)) &&
      (IdAt(toks, p) == TNAME && IdAt(toks, p + 1) == TLSQPAREN && Typed(t) ==>
         var e := Visible(sc, toks[p].str).value;
         var i := ExprKind(toks, p + 2, Symbols.LookupAndAddIref(sc, toks[p].str, toks[p].lineNo).1, ht);
         i.kind == TPINT && IdAt(toks, i.end) == TRSQPAREN && t.end == i.end + 1 &&
         e.itp.Some? && e.itp.value.etp.Some? && t.kind == e.itp.value.etp.value.ttype)
  {
    if IdAt(toks, p) == TNAME {
      LookupAndAddIrefSpec(sc, toks[p].str, toks[p].lineNo, toks[p].str);
    }
  }

  /** A cast crashes at once when no type has been parsed, and is ERROR only
      when it crashes; any other failure is TPRERROR. When it returns a kind,
      that is the keyword's kind, the operand is of a standard kind, and the
      cast is parenthesised. */
  lemma CastKindRules(toks: seq<Token>, p: nat, sc: Scopes, ht: bool)
    requires p <= |toks| && ScopesOk(sc) && IsStdType(IdAt(toks, p))
    ensures var t := CastKind(toks, p, sc, ht);
      (!ht ==> t == Typing(ERROR, p, true, sc)) && (t.kind == ERROR ==> t.halt) &&
      (!t.halt && t.kind != TPRERROR ==>
         var e := ExprKind(toks, p + 2, sc, ht);
         t.kind == DecodeIdToKind(IdAt(toks, p), false) && IsStdKind(t.kind) && IsStdKind(e.kind) &&
         IdAt(toks, p + 1) == TLPAREN && IdAt(toks, e.end) == TRPAREN && t.end == e.end + 1)
  {
    var t := CastKind(toks, p, sc, ht);
    if ht && IdAt(toks, p + 1) == TLPAREN {
      var e := ExprKind(toks, p + 2, sc, ht);
      if e.halt {
        assert t.halt;
      }
    }
    if !t.halt && t.kind != TPRERROR {
      DecodeRoundTrip(IdAt(toks, p), false);
    }
  }

  /** parseFactor: a parenthesised factor has the kind of its expression;
      `not` needs a boolean operand and is boolean; a constant has the kind
      of its token and crashes when no type has been parsed; a token no
      factor starts with is ERROR with nothing consumed. */
  lemma FactorKindRules(toks: seq<Token>, p: nat, sc: Scopes, ht: bool)
    requires p <= |toks| && ScopesOk(sc)
    ensures var t := FactorKind(toks, p, sc, ht); var id := IdAt(toks, p);
      (!StartsFactor(id) ==> t == Typing(ERROR, p, false, sc)) &&
      (id == TNUMBER || id == TSTRING || id == TTRUE || id == TFALSE ==>
         (t.halt <==> !ht) && (!t.halt ==> t.kind == DecodeIdToKind(id, false) && IsStdKind(t.kind) && t.end == p + 1)) &&
      (id == TLPAREN && Typed(t) ==>
         var e := ExprKind(toks, p + 1, sc, ht);
         t.kind == e.kind && IdAt(toks, e.end) == TRPAREN && t.end == e.end + 1) &&
      (id == TNOT && Typed(t) ==> t.kind == TPBOOL && t == FactorKind(toks, p + 1, sc, ht)) &&
      (id == TNOT && Typed(FactorKind(toks, p + 1, sc, ht)) && FactorKind(toks, p + 1, sc, ht).kind != TPBOOL ==>
         t.kind == ERROR)
  {
    var id := IdAt(toks, p);
    if id == TNUMBER || id == TSTRING || id == TTRUE || id == TFALSE {
      assert IsStdKind(DecodeIdToKind(id, false));
    }
  }

  /** The loop of parseTerm ends on a kind only with the kind it started with
      and at a token that is no mul-op, and a mul-op that does not fit that
      kind makes the term fail. */
  lemma {:induction false} TermRestRules(toks: seq<Token>, q: nat, r: int, sc: Scopes, ht: bool)
    requires q <= |toks| && ScopesOk(sc)
    ensures var t := TermRest(toks, q, r, sc, ht);
      (t.kind == ERROR || t.kind == TPRERROR || t.kind == r) &&
      (Typed(t) ==> !IsMulOp(IdAt(toks, t.end))) &&
      (IsMulOp(IdAt(toks, q)) && !MulFits(IdAt(toks, q), r) ==> t.kind == ERROR || t.kind == TPRERROR)
    decreases |toks| - q
  {
    if IsMulOp(IdAt(toks, q)) {
      var g := FactorKind(toks, q + 1, sc, ht);
      if !g.halt && g.kind != TPRERROR && MulFits(IdAt(toks, q), r) {
        TermRestRules(toks, g.end, r, g.scopes, ht);
      }
    }
  }

  /** parseTerm: a term in error on its first factor is ERROR; a term that
      returns a kind has its first factor's kind, and every mul-op the loop
      meets fits it (the first one in particular). */
  lemma TermKindRules(toks: seq<Token>, p: nat, sc: Scopes, ht: bool)
    requires p <= |toks| && ScopesOk(sc)
    ensures var t := TermKind(toks, p, sc, ht); var f := FactorKind(toks, p, sc, ht);
      (f.kind == TPRERROR ==> t.kind == ERROR) &&
      (Typed(t) ==> t.kind == f.kind && !IsMulOp(IdAt(toks, t.end))) &&
      (!f.halt && f.kind != TPRERROR && IsMulOp(IdAt(toks, f.end)) && !MulFits(IdAt(toks, f.end), f.kind) ==>
         t.kind == ERROR || t.kind == TPRERROR)
  {
    var f := FactorKind(toks, p, sc, ht);
    if !f.halt && f.kind != TPRERROR {
      TermRestRules(toks, f.end, f.kind, f.scopes, ht);
    }
  }

  /** The loop of parseSimpleExpression keeps the kind it started with, ends
      at a token that is no add-op, and fails with ERROR on a term that is not
      of its operator's kind. */
  lemma {:induction false} SimpleRestRules(toks: seq<Token>, q: nat, r: int, sc: Scopes, ht: bool)
    requires q <= |toks| && ScopesOk(sc)
    ensures var t := SimpleRest(toks, q, r, sc, ht);
      (t.kind == ERROR || t.kind == TPRERROR || t.kind == r) &&
      (Typed(t) ==> !IsAddOp(IdAt(toks, t.end))) &&
      ((IsAddOp(IdAt(toks, q)) && Typed(TermKind(toks, q + 1, sc, ht)) &&
        TermKind(toks, q + 1, sc, ht).kind != AddKind(IdAt(toks, q))) ==> t.kind == ERROR)
    decreases |toks| - q
  {
    if IsAddOp(IdAt(toks, q)) {
      var u := TermKind(toks, q + 1, sc, ht);
      if !u.halt && u.kind != TPRERROR && AddKind(IdAt(toks, q)) == u.kind {
        SimpleRestRules(toks, u.end, r, u.scopes, ht);
      }
    }
  }

  /** parseSimpleExpression: a signed simple expression needs an integer
      term and is integer; one that returns a kind has its first term's kind
      and ends at a token that is no add-op. */
  lemma SimpleKindRules(toks: seq<Token>, p: nat, sc: Scopes, ht: bool)
    requires p <= |toks| && ScopesOk(sc)
    ensures var t := SimpleKind(toks, p, sc, ht);
      var signed := IdAt(toks, p) == TPLUS || IdAt(toks, p) == TMINUS;
      var u := TermKind(toks, if signed then p + 1 else p, sc, ht);
      (Typed(t) ==> t.kind == u.kind && !IsAddOp(IdAt(toks, t.end))) &&
      (signed && Typed(t) ==> t.kind == TPINT) &&
      (signed && Typed(u) && u.kind != TPINT ==> t.kind == ERROR)
  {
    var signed := IdAt(toks, p) == TPLUS || IdAt(toks, p) == TMINUS;
    var u := TermKind(toks, if signed then p + 1 else p, sc, ht);
    if !u.halt && u.kind != TPRERROR {
      SimpleRestRules(toks, u.end, u.kind, u.scopes, ht);
    }
  }

  /** The loop of parseExpression: with no rel-op it returns the kind it
      started with; after a rel-op a kind is boolean; and it ends at a token
      that is no rel-op. */
  lemma {:induction false} ExprRestRules(toks: seq<Token>, q: nat, r: int, sc: Scopes, ht: bool)
    requires q <= |toks| && ScopesOk(sc)
    ensures var t := ExprRest(toks, q, r, sc, ht);
      (!IsRelOp(IdAt(toks, q)) ==> t == Typing(r, q, false, sc)) &&
      (IsRelOp(IdAt(toks, q)) && !t.halt && t.kind != TPRERROR ==> t.kind == TPBOOL) &&
      (!t.halt && t.kind != TPRERROR ==> !IsRelOp(IdAt(toks, t.end)))
    decreases |toks| - q
  {
    if IsRelOp(IdAt(toks, q)) {
      var s := SimpleKind(toks, q + 1, sc, ht);
      if !s.halt && s.kind != TPRERROR {
        ExprRestRules(toks, s.end, TPBOOL, s.scopes, ht);
      }
    }
  }

  /** parseExpression: a relation is boolean whatever its operands; without
      one the expression has its simple expression's kind. */
  lemma ExprKindRules(toks: seq<Token>, p: nat, sc: Scopes, ht: bool)
    requires p <= |toks| && ScopesOk(sc)
    ensures var t := ExprKind(toks, p, sc, ht); var s := SimpleKind(toks, p, sc, ht);
      (!s.halt && s.kind != TPRERROR && !IsRelOp(IdAt(toks, s.end)) ==> t == s) &&
      (!s.halt && s.kind != TPRERROR && IsRelOp(IdAt(toks, s.end)) && !t.halt && t.kind != TPRERROR ==>
         t.kind == TPBOOL) &&
      (!t.halt && t.kind != TPRERROR ==> !IsRelOp(IdAt(toks, t.end)))
  {
    var s := SimpleKind(toks, p, sc, ht);
    if !s.halt && s.kind != TPRERROR {
      ExprRestRules(toks, s.end, s.kind, s.scopes, ht);
    }
  }

  // The argument list of parseCall and the variable list of parseInput.

  /** What a comma-separated list reads: the kinds compared (the failing one
      included), whether every check passed and the list ended, the cursor
      after it, a crash, and the tables. */
  datatype Listing = Listing(kinds: seq<int>, ok: bool, end: nat, halt: bool, scopes: Scopes)

  predicate ListingOk(toks: seq<Token>, p: nat, l: Listing)
  {
    p <= l.end <= |toks| && (l.halt ==> !l.ok) && ScopesOk(l.scopes)
  }

  /** The arguments of parseCall from p, after arguments of kinds `done`,
      against the kinds `params` of the parameters left: an expression whose
      kind is TPRERROR stops the list unchecked; one with no parameter left,
      or of another kind than its parameter, stops it after the check; a
      comma goes on with the next parameter. */
  ghost function ArgsFrom(toks: seq<Token>, p: nat, sc: Scopes, ht: bool, params: seq<int>, done: seq<int>): (l: Listing)
    requires p <= |toks| && ScopesOk(sc)
    ensures ListingOk(toks, p, l)
    decreases |toks| - p
  {
    var e := ExprKind(toks, p, sc, ht);
    if e.halt || e.kind == TPRERROR then Listing(done, false, e.end, e.halt, e.scopes)
    else if params == [] || e.kind != params[0] then Listing(done + [e.kind], false, e.end, false, e.scopes)
    else if IdAt(toks, e.end) != TCOMMA then Listing(done + [e.kind], true, e.end, false, e.scopes)
    else ArgsFrom(toks, e.end + 1, e.scopes, ht, params[1..], done + [e.kind])
  }

  /** The variables of parseInput from p, after variables of kinds `done`: a
      variable of kind TPRERROR stops the list unchecked, one that is
      neither integer nor char stops it after the check, and a comma goes
      on. */
  ghost function ReadVarsFrom(toks: seq<Token>, p: nat, sc: Scopes, ht: bool, done: seq<int>): (l: Listing)
    requires p <= |toks| && ScopesOk(sc)
    ensures ListingOk(toks, p, l)
    decreases |toks| - p
  {
    var v := VarKind(toks, p, sc, ht);
    if v.halt || v.kind == TPRERROR then Listing(done, false, v.end, v.halt, v.scopes)
    else if v.kind != TPINT && v.kind != TPCHAR then Listing(done + [v.kind], false, v.end, false, v.scopes)
    else if IdAt(toks, v.end) != TCOMMA then Listing(done + [v.kind], true, v.end, false, v.scopes)
    else ReadVarsFrom(toks, v.end + 1, v.scopes, ht, done + [v.kind])
  }

  /** The argument list keeps the kinds read before it in front. */
  lemma {:induction false} ArgsFromKeeps(toks: seq<Token>, p: nat, sc: Scopes, ht: bool, params: seq<int>, done: seq<int>)
    requires p <= |toks| && ScopesOk(sc)
    ensures var l := ArgsFrom(toks, p, sc, ht, params, done);
      |done| <= |l.kinds| && l.kinds[..|done|] == done
    decreases |toks| - p
  {
    var e := ExprKind(toks, p, sc, ht);
    if !e.halt && e.kind != TPRERROR && params != [] && e.kind == params[0] && IdAt(toks, e.end) == TCOMMA {
      var d := done + [e.kind];
      ArgsFromKeeps(toks, e.end + 1, e.scopes, ht, params[1..], d);
      var l := ArgsFrom(toks, e.end + 1, e.scopes, ht, params[1..], d);
      assert l.kinds[..|done|] == l.kinds[..|d|][..|done|];
    }
  }

  /** Read against the whole parameter list `all`, of which the arguments
      before p took `done` and `params` is left: every argument but the last
      one compared has its parameter's kind; a list that passes has an
      argument of its own, its kinds are the first parameter kinds in
      order, and it ends at a token other than a comma. */
  lemma {:induction false} ArgsFromRules(toks: seq<Token>, p: nat, sc: Scopes, ht: bool, all: seq<int>, params: seq<int>, done: seq<int>)
    requires p <= |toks| && ScopesOk(sc)
    requires |done| <= |all| && done == all[..|done|] && params == all[|done|..]
    ensures var l := ArgsFrom(toks, p, sc, ht, params, done);
      (l.ok ==> |done| < |l.kinds| <= |all| && l.kinds == all[..|l.kinds|] && IdAt(toks, l.end) != TCOMMA) &&
      (|l.kinds| > |done| ==> |l.kinds| - 1 <= |all| && l.kinds[..|l.kinds| - 1] == all[..|l.kinds| - 1])
    decreases |toks| - p
  {
    var e := ExprKind(toks, p, sc, ht);
    if e.halt || e.kind == TPRERROR {
    } else if params == [] || e.kind != params[0] || IdAt(toks, e.end) != TCOMMA {
      var l := ArgsFrom(toks, p, sc, ht, params, done);
      assert l.kinds == done + [e.kind] && l.kinds[..|l.kinds| - 1] == done;
      if l.ok {
        assert all[..|l.kinds|] == all[..|done|] + [all[|done|]];
      }
    } else {
      var d := done + [e.kind];
      assert all[..|d|] == all[..|done|] + [all[|done|]];
      assert params[1..] == all[|d|..];
      ArgsFromRules(toks, e.end + 1, e.scopes, ht, all, params[1..], d);
      ArgsFromKeeps(toks, e.end + 1, e.scopes, ht, params[1..], d);
      var l := ArgsFrom(toks, e.end + 1, e.scopes, ht, params[1..], d);
      if |l.kinds| == |d| {
        assert l.kinds == d;
      }
    }
  }

  /** The variable list of parseInput from the start: every variable but a
      failing last one is integer or char; a list that passes has at least
      one variable, all integer or char, and ends at a token other than a
      comma. */
  lemma {:induction false} ReadVarsRules(toks: seq<Token>, p: nat, sc: Scopes, ht: bool, done: seq<int>)
    requires p <= |toks| && ScopesOk(sc)
    requires forall i :: 0 <= i < |done| ==> done[i] == TPINT || done[i] == TPCHAR
    ensures var l := ReadVarsFrom(toks, p, sc, ht, done);
      |done| <= |l.kinds| && l.kinds[..|done|] == done &&
      (forall i :: 0 <= i < |l.kinds| - 1 ==> l.kinds[i] == TPINT || l.kinds[i] == TPCHAR) &&
      (l.ok ==>
         |l.kinds| > |done| && IdAt(toks, l.end) != TCOMMA &&
         forall i :: 0 <= i < |l.kinds| ==> l.kinds[i] == TPINT || l.kinds[i] == TPCHAR)
    decreases |toks| - p
  {
    var v := VarKind(toks, p, sc, ht);
    if !v.halt && v.kind != TPRERROR && (v.kind == TPINT || v.kind == TPCHAR) && IdAt(toks, v.end) == TCOMMA {
      var d := done + [v.kind];
      ReadVarsRules(toks, v.end + 1, v.scopes, ht, d);
      var l := ReadVarsFrom(toks, v.end + 1, v.scopes, ht, d);
      assert l.kinds[..|done|] == l.kinds[..|d|][..|done|];
    }
  }

  // The statements whose outcome the typing alone decides.

  /** parseAssignment: `variable := expression`. Only TPRERROR on either
      side, or a missing `:=`, fails it: the kinds of the two sides are not
      compared, and a side whose kind is ERROR, already reported, passes. */
  ghost function AssignKind(toks: seq<Token>, p: nat, sc: Scopes, ht: bool): (t: Typing)
    requires p <= |toks| && ScopesOk(sc)
    ensures TypingOk(toks, p, t) && (t.kind == NORMAL || t.kind == ERROR)
  {
    var v := VarKind(toks, p, sc, ht);
    if v.halt || v.kind == TPRERROR || IdAt(toks, v.end) != TASSIGN then Typing(ERROR, v.end, v.halt, v.scopes)
    else
      var e := ExprKind(toks, v.end + 1, v.scopes, ht);
      Typing(if e.halt || e.kind == TPRERROR then ERROR else NORMAL, e.end, e.halt, e.scopes)
  }

  /** parseOutputFormat: a string whose length is not 1 is taken whole;
      anything else is an expression, optionally followed by `: NUMBER`.
      The kind check written for the expression tests for TPRERROR where
      TPRERROR has already been ruled out, so every other kind passes. */
  ghost function FormatKind(toks: seq<Token>, p: nat, sc: Scopes, ht: bool): (t: Typing)
    requires p <= |toks| && ScopesOk(sc)
    ensures TypingOk(toks, p, t) && (t.kind == NORMAL || t.kind == ERROR)
  {
    if IdAt(toks, p) == TSTRING && toks[p].len != 1 then Typing(NORMAL, p + 1, false, sc)
    else
      var e := ExprKind(toks, p, sc, ht);
      if e.halt || e.kind == TPRERROR then Typing(ERROR, e.end, e.halt, e.scopes)
      else if IdAt(toks, e.end) != TCOLON then Typing(NORMAL, e.end, false, e.scopes)
      else if IdAt(toks, e.end + 1) != TNUMBER then Typing(ERROR, e.end + 1, false, e.scopes)
      else Typing(NORMAL, e.end + 2, false, e.scopes)
  }

  /** The output formats of parseOutputStatement from p, after its `(`: a
      format, then another one after each comma, stopping at the first that
      fails. */
  ghost function FormatsFrom(toks: seq<Token>, p: nat, sc: Scopes, ht: bool): (t: Typing)
    requires p <= |toks| && ScopesOk(sc)
    ensures TypingOk(toks, p, t) && (t.kind == NORMAL || t.kind == ERROR)
    decreases |toks| - p, 1
  {
    var f := FormatKind(toks, p, sc, ht);
    if f.kind == ERROR then f else FormatsAfter(toks, f.end, f.scopes, ht)
  }

  /** The rest of the format list once a format has passed, ending before q. */
  ghost function FormatsAfter(toks: seq<Token>, q: nat, sc: Scopes, ht: bool): (t: Typing)
    requires q <= |toks| && ScopesOk(sc)
    ensures TypingOk(toks, q, t) && (t.kind == NORMAL || t.kind == ERROR)
    decreases |toks| - q, 0
  {
    if IdAt(toks, q) != TCOMMA then Typing(NORMAL, q, false, sc)
    else FormatsFrom(toks, q + 1, sc, ht)
  }

  /** An assignment passes exactly when both sides have a kind other than
      TPRERROR and `:=` stands between them, whatever those kinds are: an
      integer variable takes a boolean expression, and an operand typed
      ERROR passes too. */
  lemma AssignKindRules(toks: seq<Token>, p: nat, sc: Scopes, ht: bool)
    requires p <= |toks| && ScopesOk(sc)
    ensures var v := VarKind(toks, p, sc, ht);
      var t := AssignKind(toks, p, sc, ht);
      (t.kind == NORMAL <==>
         !v.halt && v.kind != TPRERROR && IdAt(toks, v.end) == TASSIGN &&
         var e := ExprKind(toks, v.end + 1, v.scopes, ht); !e.halt && e.kind != TPRERROR) &&
      (t.kind == NORMAL ==> p < v.end + 1 <= t.end && IdAt(toks, v.end) == TASSIGN)
  {
  }

  /** `( NUMBER ;` is an expression typed ERROR that does not stop the
      parser: the parenthesis is reported as unclosed and the operand's
      kind becomes ERROR, not TPRERROR. */
  lemma UnclosedParenthesis(toks: seq<Token>, p: nat, sc: Scopes)
    requires p + 3 <= |toks| && ScopesOk(sc)
    requires IdAt(toks, p) == TLPAREN && IdAt(toks, p + 1) == TNUMBER && IdAt(toks, p + 2) == TSEMI
    ensures ExprKind(toks, p, sc, true) == Typing(ERROR, p + 2, false, sc)
  {
    var one := Typing(TPINT, p + 2, false, sc);
    assert FactorKind(toks, p + 1, sc, true) == one;
    assert TermKind(toks, p + 1, sc, true) == one;
    assert SimpleKind(toks, p + 1, sc, true) == one;
    assert ExprKind(toks, p + 1, sc, true) == one;
    var bad := Typing(ERROR, p + 2, false, sc);
    assert FactorKind(toks, p, sc, true) == bad;
    assert TermKind(toks, p, sc, true) == bad;
    assert SimpleKind(toks, p, sc, true) == bad;
  }

  /** So `x := ( 1 ;` passes as an assignment once `x` is a variable: the
      unclosed parenthesis is reported, and the statement is NORMAL. */
  lemma AssignmentPassesUnclosedOperand(toks: seq<Token>, p: nat, sc: Scopes)
    requires p <= |toks| && ScopesOk(sc)
    requires var v := VarKind(toks, p, sc, true);
      !v.halt && v.kind != TPRERROR && v.end + 4 <= |toks| && IdAt(toks, v.end) == TASSIGN &&
      IdAt(toks, v.end + 1) == TLPAREN && IdAt(toks, v.end + 2) == TNUMBER && IdAt(toks, v.end + 3) == TSEMI
    ensures AssignKind(toks, p, sc, true).kind == NORMAL
    ensures ExprKind(toks, VarKind(toks, p, sc, true).end + 1, VarKind(toks, p, sc, true).scopes, true).kind == ERROR
  {
    var v := VarKind(toks, p, sc, true);
    UnclosedParenthesis(toks, v.end + 1, v.scopes);
  }

  /** An output format passes exactly when it is a string of a length
      other than 1, or an expression of any kind but TPRERROR, after which
      a `:` must be followed by a number. */
  lemma FormatKindRules(toks: seq<Token>, p: nat, sc: Scopes, ht: bool)
    requires p <= |toks| && ScopesOk(sc)
    ensures var t := FormatKind(toks, p, sc, ht);
      var e := ExprKind(toks, p, sc, ht);
      (IdAt(toks, p) == TSTRING && toks[p].len != 1 ==> t == Typing(NORMAL, p + 1, false, sc)) &&
      (!(IdAt(toks, p) == TSTRING && toks[p].len != 1) ==>
         (t.kind == NORMAL <==> !e.halt && e.kind != TPRERROR && (IdAt(toks, e.end) == TCOLON ==> IdAt(toks, e.end + 1) == TNUMBER)) &&
         (t.kind == NORMAL ==> t.end == (if IdAt(toks, e.end) == TCOLON then e.end + 2 else e.end)))
  {
  }

  /** A format list that passes ends at a token other than a comma, after
      at least one format; one that fails stops at the first failing
      format. */
  lemma {:induction false} FormatsRules(toks: seq<Token>, p: nat, sc: Scopes, ht: bool)
    requires p <= |toks| && ScopesOk(sc)
    ensures var t := FormatsFrom(toks, p, sc, ht);
      var f := FormatKind(toks, p, sc, ht);
      (t.kind == NORMAL ==> f.kind == NORMAL && f.end <= t.end && IdAt(toks, t.end) != TCOMMA) &&
      (f.kind == ERROR ==> t == f)
    decreases |toks| - p
  {
    var f := FormatKind(toks, p, sc, ht);
    if f.kind == NORMAL && IdAt(toks, f.end) == TCOMMA {
      FormatsRules(toks, f.end + 1, f.scopes, ht);
    }
  }
}
