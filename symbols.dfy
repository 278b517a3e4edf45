// Type records and scope handling shared by the type-checking parsers of
// 03/parse.c and 4/parse.c: copyType, the two type-kind decoders, pushIref,
// lookupAndAddIref over the global and local tables, and the parameter type
// list that parseFormalParamters links through `paratp`.
module Symbols {
  import opened Wrappers
  import opened Lpp
  import opened HashMap

  /** copyType: a node-by-node copy through `etp` and `paratp`, NULL for
      NULL. Records are values here, so the copy equals its source. */
  function CopyType(src: Option<Type>): (dst: Option<Type>)
    ensures dst == src
  {
    match src
    case None => None
    case Some(t) => Some(Type(t.ttype, t.arraysize, CopyType(t.etp), CopyType(t.paratp)))
  }

  /** The TYPE_KIND of a standard type (integer, char, boolean). */
  predicate IsStdKind(k: int)
  {
    k == TPINT || k == TPCHAR || k == TPBOOL
  }

  /** decodeIDtoTYPEKIND: a type keyword or constant token to its kind, the
      array kind when `isArray`; anything else reports an error, whose result
      is ERROR. */
  function DecodeIdToKind(id: int, isArray: bool): (k: int)
    ensures k == ERROR || TPINT <= k <= TPPROC
    ensures k == TPPROC <==> id == TPROCEDURE
    ensures k != ERROR && k != TPPROC ==> (isArray <==> TPARRAYINT <= k <= TPARRAYBOOL)
  {
    if id == TPROCEDURE then TPPROC
    else if id == TINTEGER || id == TNUMBER then (if isArray then TPARRAYINT else TPINT)
    else if id == TCHAR || id == TSTRING then (if isArray then TPARRAYCHAR else TPCHAR)
    else if id == TTRUE || id == TFALSE || id == TBOOLEAN then (if isArray then TPARRAYBOOL else TPBOOL)
    else ERROR
  }

  /** decodeTYPEKINDtoID: a standard or array kind to the keyword of its
      element type; None for the kinds the switch reports as invalid. */
  function DecodeKindToId(kind: int): (r: Option<int>)
    ensures r.Some? <==> TPINT <= kind <= TPARRAYBOOL
    ensures r.Some? ==> IsStdType(r.value)
  {
    if kind == TPINT || kind == TPARRAYINT then Some(TINTEGER)
    else if kind == TPCHAR || kind == TPARRAYCHAR then Some(TCHAR)
    else if kind == TPBOOL || kind == TPARRAYBOOL then Some(TBOOLEAN)
    else None
  }

  /** Decoding a standard type keyword to a kind and back gives the keyword,
      for the plain and the array kind; the plain kind is a standard kind and
      the array kind is its array counterpart. */
  lemma DecodeRoundTrip(id: int, isArray: bool)
    requires IsStdType(id)
    ensures DecodeKindToId(DecodeIdToKind(id, isArray)) == Some(id)
    ensures !isArray ==> IsStdKind(DecodeIdToKind(id, isArray))
    ensures isArray ==> DecodeIdToKind(id, isArray) == DecodeIdToKind(id, false) + TPARRAYINT
  {
  }

  /** The kind decoder fails exactly on the tokens that name no type or
      constant. */
  lemma DecodeIdToKindErrors(id: int, isArray: bool)
    ensures DecodeIdToKind(id, isArray) == ERROR <==>
      !(id == TPROCEDURE || IsStdType(id) || id == TNUMBER || id == TSTRING || id == TTRUE || id == TFALSE)
  {
  }

  /** pushIref: the new reference line goes at the end of the list, behind
      the earlier ones in their order. */
  function PushIref(iref: seq<int>, refline: int): (r: seq<int>)
    ensures |r| == |iref| + 1 && r[..|iref|] == iref && r[|iref|] == refline
  {
    iref + [refline]
  }

  /** The global table, the current local table, and whether `current_id`
      points at the local one. */
  datatype Scopes = Scopes(global: Table<Id>, local: Table<Id>, inLocal: bool)

  predicate ScopesOk(s: Scopes)
  {
    |s.global| == HASHSIZE && |s.local| == HASHSIZE
  }

  /** The table `*current_id` names. */
  function Current(s: Scopes): Table<Id>
  {
    if s.inLocal then s.local else s.global
  }

  /** The search of lookupAndAddIref: the current table, then the global one
      when the local table is current. */
  function Visible(s: Scopes, name: string): Option<Id>
    requires ScopesOk(s)
  {
    var here := TableGet(Current(s), name);
    if here.Some? || !s.inLocal then here else TableGet(s.global, name)
  }

  /** The entry with one more reference line. */
  function Referenced(e: Id, line: int): Id
  {
    e.(irefp := PushIref(e.irefp, line))
  }

  /** lookupAndAddIref: the entry found, with `line_no` appended to its
      reference list in the table where it was found; nothing changes when
      the name is not found. */
  function LookupAndAddIref(s: Scopes, name: string, line: int): (r: (Option<Id>, Scopes))
    requires ScopesOk(s)
    ensures ScopesOk(r.1) && r.1.inLocal == s.inLocal
  {
    var here := TableGet(Current(s), name);
    if here.Some? then
      var e := Referenced(here.value, line);
      if s.inLocal then (Some(e), s.(local := TablePut(s.local, name, e)))
      else (Some(e), s.(global := TablePut(s.global, name, e)))
    else if s.inLocal && TableGet(s.global, name).Some? then
      var e := Referenced(TableGet(s.global, name).value, line);
      (Some(e), s.(global := TablePut(s.global, name, e)))
    else (None, s)
  }

  /** What lookupAndAddIref does to the tables: the name is found exactly
      when it is visible, and then it (and nothing else) gains the reference
      line, in the current table if it is there and in the global table
      otherwise; a name that is not found changes nothing. */
  lemma LookupAndAddIrefSpec(s: Scopes, name: string, line: int, other: string)
    requires ScopesOk(s)
    ensures var (entry, s') := LookupAndAddIref(s, name, line);
      entry.Some? == Visible(s, name).Some? &&
      (entry.Some? ==> entry == Some(Referenced(Visible(s, name).value, line))) &&
      (entry.None? ==> s' == s) &&
      Visible(s', other) == (if other == name then entry else Visible(s, other))
  {
    var (entry, s') := LookupAndAddIref(s, name, line);
    if entry.Some? {
      var here := TableGet(Current(s), name);
      if here.Some? {
        if s.inLocal {
          GetAfterPut(s.local, name, entry.value, other);
        } else {
          GetAfterPut(s.global, name, entry.value, other);
        }
      } else {
        GetAfterPut(s.global, name, entry.value, other);
        GetAfterPut(s.global, name, entry.value, name);
      }
    }
  }

  /** The reference lines only grow: after a lookup every visible entry
      keeps its earlier lines as a prefix. */
  lemma LookupAndAddIrefKeepsRefs(s: Scopes, name: string, line: int, other: string)
    requires ScopesOk(s) && Visible(s, other).Some?
    ensures var s' := LookupAndAddIref(s, name, line).1;
      Visible(s', other).Some? &&
      Visible(s, other).value.irefp <= Visible(s', other).value.irefp
  {
    LookupAndAddIrefSpec(s, name, line, other);
  }

  /** enterScope: a fresh local table of HASHSIZE buckets becomes current. */
  function EnterScope(s: Scopes): (r: Scopes)
    ensures ScopesOk(s) ==> ScopesOk(r)
    ensures r.inLocal && r.global == s.global && |r.local| == HASHSIZE
    ensures forall name :: TableGet(r.local, name) == None
  {
    EmptyTableIsEmpty<Id>(HASHSIZE);
    Scopes(s.global, EmptyTable(HASHSIZE), true)
  }

  /** An element of the name stack (struct VAR). */
  datatype Var = Var(lineNo: int, name: string)

  /** The entry processVarNameStack creates for a declared variable. */
  function VarEntry(v: Var, procName: Option<string>, ty: Option<Type>): Id
  {
    Id(v.name, procName, CopyType(ty), false, v.lineNo, [])
  }

  /** processVarNameStack: the names come off the stack last first, and each
      is entered into the current table with a copy of the declared type. A
      name the table already holds stops the program: 03/parse.c walks to
      the end of its reference list and writes through the NULL it finds
      there, and 4/parse.c reports it as already defined and exits. None
      stands for that stop. */
  function DeclareVars(t: Table<Id>, vars: seq<Var>, procName: Option<string>, ty: Option<Type>): (r: Option<Table<Id>>)
    requires |t| > 0
    ensures r.Some? ==> |r.value| == |t|
    decreases |vars|
  {
    if vars == [] then Some(t)
    else
      var v := vars[|vars| - 1];
      if TableGet(t, v.name).Some? then None
      else DeclareVars(TablePut(t, v.name, VarEntry(v, procName, ty)), vars[..|vars| - 1], procName, ty)
  }

  /** No stacked name is in the table yet, and no two stacked names are equal. */
  ghost predicate FreshNames(t: Table<Id>, vars: seq<Var>)
    requires |t| > 0
  {
    (forall i :: 0 <= i < |vars| ==> TableGet(t, vars[i].name).None?) &&
    (forall i, j :: 0 <= i < j < |vars| ==> vars[i].name != vars[j].name)
  }

  /** The table after declaring the top of the stack, and the rest of the
      stack: if the top name was absent, the table holds exactly that name
      more. */
  lemma GetAfterDeclaringTop(t: Table<Id>, vars: seq<Var>, procName: Option<string>, ty: Option<Type>)
    requires |t| > 0 && vars != []
    ensures var v := vars[|vars| - 1]; var t' := TablePut(t, v.name, VarEntry(v, procName, ty));
      forall i :: 0 <= i < |vars| - 1 ==>
        TableGet(t', vars[..|vars| - 1][i].name) ==
        (if vars[i].name == v.name then Some(VarEntry(v, procName, ty)) else TableGet(t, vars[i].name))
  {
    var v := vars[|vars| - 1];
    var pre := vars[..|vars| - 1];
    forall i | 0 <= i < |pre|
      ensures TableGet(TablePut(t, v.name, VarEntry(v, procName, ty)), pre[i].name) ==
        (if vars[i].name == v.name then Some(VarEntry(v, procName, ty)) else TableGet(t, vars[i].name))
    {
      assert pre[i] == vars[i];
      GetAfterPut(t, v.name, VarEntry(v, procName, ty), pre[i].name);
    }
  }

  /** A fresh stack stays fresh, without its top, in the table that holds
      the top name. */
  lemma FreshNamesPop(t: Table<Id>, vars: seq<Var>, procName: Option<string>, ty: Option<Type>)
    requires |t| > 0 && vars != [] && FreshNames(t, vars)
    ensures var v := vars[|vars| - 1];
      FreshNames(TablePut(t, v.name, VarEntry(v, procName, ty)), vars[..|vars| - 1])
  {
    var v := vars[|vars| - 1];
    var pre := vars[..|vars| - 1];
    var t' := TablePut(t, v.name, VarEntry(v, procName, ty));
    GetAfterDeclaringTop(t, vars, procName, ty);
    forall i, j | 0 <= i < j < |pre| ensures pre[i].name != pre[j].name {
      assert pre[i] == vars[i] && pre[j] == vars[j];
    }
    forall i | 0 <= i < |pre| ensures TableGet(t', pre[i].name).None? {
      assert pre[i] == vars[i];
      assert vars[i].name != vars[|vars| - 1].name;
    }
  }

  /** Conversely, an absent top name over a rest that is fresh in the table
      holding the top name makes a fresh stack. */
  lemma FreshNamesPush(t: Table<Id>, vars: seq<Var>, procName: Option<string>, ty: Option<Type>)
    requires |t| > 0 && vars != [] && TableGet(t, vars[|vars| - 1].name).None?
    requires var v := vars[|vars| - 1];
      FreshNames(TablePut(t, v.name, VarEntry(v, procName, ty)), vars[..|vars| - 1])
    ensures FreshNames(t, vars)
  {
    var v := vars[|vars| - 1];
    var pre := vars[..|vars| - 1];
    var t' := TablePut(t, v.name, VarEntry(v, procName, ty));
    GetAfterDeclaringTop(t, vars, procName, ty);
    forall i | 0 <= i < |vars| ensures TableGet(t, vars[i].name).None? {
      if i < |pre| {
        assert vars[i] == pre[i];
      }
    }
    forall i, j | 0 <= i < j < |vars| ensures vars[i].name != vars[j].name {
      assert vars[i] == pre[i];
      if j < |pre| {
        assert vars[j] == pre[j];
      } else {
        assert TableGet(t', pre[i].name).None?;
      }
    }
  }

  /** The declarations go through exactly when every name is fresh; a name
      declared before, in the table or earlier on the stack, stops the
      program. */
  lemma {:induction false} DeclareVarsSucceeds(t: Table<Id>, vars: seq<Var>, procName: Option<string>, ty: Option<Type>)
    requires |t| > 0
    ensures DeclareVars(t, vars, procName, ty).Some? <==> FreshNames(t, vars)
    decreases |vars|
  {
    if vars != [] {
      var v := vars[|vars| - 1];
      if TableGet(t, v.name).None? {
        DeclareVarsSucceeds(TablePut(t, v.name, VarEntry(v, procName, ty)), vars[..|vars| - 1], procName, ty);
        if FreshNames(t, vars) {
          FreshNamesPop(t, vars, procName, ty);
        } else if FreshNames(TablePut(t, v.name, VarEntry(v, procName, ty)), vars[..|vars| - 1]) {
          FreshNamesPush(t, vars, procName, ty);
        }
      } else {
        assert !FreshNames(t, vars) by {
          assert TableGet(t, vars[|vars| - 1].name).Some?;
        }
      }
    }
  }

  /** After declarations that go through, each stacked name holds its own
      entry and every other name keeps what it had. */
  lemma {:induction false} DeclareVarsDeclares(t: Table<Id>, vars: seq<Var>, procName: Option<string>,
                                               ty: Option<Type>, name: string)
    requires |t| > 0 && DeclareVars(t, vars, procName, ty).Some?
    ensures var r := DeclareVars(t, vars, procName, ty).value;
      (forall i :: 0 <= i < |vars| && vars[i].name == name ==> TableGet(r, name) == Some(VarEntry(vars[i], procName, ty))) &&
      ((forall i :: 0 <= i < |vars| ==> vars[i].name != name) ==> TableGet(r, name) == TableGet(t, name))
    decreases |vars|
  {
    if vars != [] {
      var v := vars[|vars| - 1];
      var pre := vars[..|vars| - 1];
      var t' := TablePut(t, v.name, VarEntry(v, procName, ty));
      DeclareVarsDeclares(t', pre, procName, ty, name);
      GetAfterPut(t, v.name, VarEntry(v, procName, ty), name);
      DeclareVarsSucceeds(t, vars, procName, ty);
      var r := DeclareVars(t, vars, procName, ty).value;
      forall i | 0 <= i < |vars| && vars[i].name == name
        ensures TableGet(r, name) == Some(VarEntry(vars[i], procName, ty))
      {
        if i < |pre| {
          assert vars[i] == pre[i];
        } else {
          assert forall k :: 0 <= k < |pre| ==> pre[k].name != name by {
            forall k | 0 <= k < |pre| ensures pre[k].name != name {
              assert pre[k] == vars[k];
            }
          }
        }
      }
      if forall i :: 0 <= i < |vars| ==> vars[i].name != name {
        assert forall k :: 0 <= k < |pre| ==> pre[k].name != name by {
          forall k | 0 <= k < |pre| ensures pre[k].name != name {
            assert pre[k] == vars[k];
          }
        }
      }
    }
  }

  /** The parameter type list: one node per kind, linked through `paratp`. */
  function ParamChain(kinds: seq<int>): Option<Type>
  {
    if kinds == [] then None else Some(Type(kinds[0], -1, None, ParamChain(kinds[1..])))
  }

  /** The kinds along a `paratp` list, as printType and parseCall walk it. */
  function ChainKinds(t: Option<Type>): seq<int>
  {
    match t
    case None => []
    case Some(n) => [n.ttype] + ChainKinds(n.paratp)
  }

  /** Walking the list built from a sequence of kinds gives that sequence. */
  lemma {:induction false} ChainKindsOfParamChain(kinds: seq<int>)
    ensures ChainKinds(ParamChain(kinds)) == kinds
    decreases |kinds|
  {
    if kinds != [] {
      ChainKindsOfParamChain(kinds[1..]);
    }
  }

  /** The inner loop of parseFormalParamters: the names come off the stack
      last first, and each one not yet in the local table is entered as a
      parameter of the procedure with one standard type node. */
  function DeclareParams(local: Table<Id>, vars: seq<Var>, procName: Option<string>, kind: int): (r: Table<Id>)
    requires |local| > 0
    ensures |r| == |local|
    decreases |vars|
  {
    if vars == [] then local
    else
      var v := vars[|vars| - 1];
      var t := if TableGet(local, v.name).None? then
        TablePut(local, v.name, Id(v.name, procName, Some(Type(kind, -1, None, None)), true, v.lineNo, []))
      else local;
      DeclareParams(t, vars[..|vars| - 1], procName, kind)
  }

  /** After the loop every stacked name is in the local table: an entry
      that was there stays, and a new name is a parameter with the group's
      kind. */
  lemma {:induction false} DeclareParamsDeclares(local: Table<Id>, vars: seq<Var>, procName: Option<string>,
                                                 kind: int, name: string)
    requires |local| > 0
    ensures var r := DeclareParams(local, vars, procName, kind);
      (TableGet(local, name).Some? ==> TableGet(r, name) == TableGet(local, name)) &&
      ((exists v :: v in vars && v.name == name) ==> TableGet(r, name).Some?) &&
      (TableGet(r, name).Some? && TableGet(local, name).None? ==>
         TableGet(r, name).value.ispara && TableGet(r, name).value.itp == Some(Type(kind, -1, None, None)))
      && ((forall v :: v in vars ==> v.name != name) ==> TableGet(r, name) == TableGet(local, name))
    decreases |vars|
  {
    if vars != [] {
      var v := vars[|vars| - 1];
      var t := if TableGet(local, v.name).None? then
        TablePut(local, v.name, Id(v.name, procName, Some(Type(kind, -1, None, None)), true, v.lineNo, []))
      else local;
      if TableGet(local, v.name).None? {
        GetAfterPut(local, v.name, Id(v.name, procName, Some(Type(kind, -1, None, None)), true, v.lineNo, []), name);
      }
      DeclareParamsDeclares(t, vars[..|vars| - 1], procName, kind, name);
      assert forall w :: w in vars ==> w in vars[..|vars| - 1] || w == v by {
        assert vars == vars[..|vars| - 1] + [v];
      }
    }
  }

  /** The entries of a table bucket by bucket, each chain from its head: the
      order in which printCrossreferenceTable visits them. */
  function Entries(t: Table<Id>): (r: seq<Entry<Id>>)
    ensures |t| == 0 ==> r == []
  {
    if t == [] then [] else Entries(t[..|t| - 1]) + t[|t| - 1]
  }

  /** Every entry of every chain is visited, and nothing else. */
  lemma {:induction false} EntriesComplete(t: Table<Id>, e: Entry<Id>)
    ensures e in Entries(t) <==> exists b :: 0 <= b < |t| && e in t[b]
  {
    if t != [] {
      EntriesComplete(t[..|t| - 1], e);
      var u := t[..|t| - 1];
      if e in Entries(t) && e !in t[|t| - 1] {
        var b :| 0 <= b < |u| && e in u[b];
        assert t[b] == u[b];
      }
      if exists b :: 0 <= b < |t| && e in t[b] {
        var b :| 0 <= b < |t| && e in t[b];
        if b < |t| - 1 {
          assert u[b] == t[b];
        }
      }
    }
  }

  /** The entry is a procedure (the test parseCall makes on the callee). */
  predicate IsProcedure(e: Option<Id>)
  {
    e.Some? && e.value.itp.Some? && e.value.itp.value.ttype == TPPROC
  }

  /** A procedure entry whose type carries the parameter type list. */
  function WithParams(e: Id, params: Option<Type>): (r: Id)
    requires e.itp.Some?
    ensures r.itp.Some? && ChainKinds(r.itp.value.paratp) == ChainKinds(params)
    ensures r.name == e.name && r.defline == e.defline && r.itp.value.ttype == e.itp.value.ttype
  {
    e.(itp := Some(e.itp.value.(paratp := params)))
  }

  /** The table current_id points to, replaced. */
  function WithCurrent(s: Scopes, t: Table<Id>): Scopes
  {
    if s.inLocal then s.(local := t) else s.(global := t)
  }
}
