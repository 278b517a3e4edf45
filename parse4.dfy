// The type-checking parser of 4/parse.c.
//
// The state is that of 03/parse.c (the cursor, the global and local symbol
// tables, the procedure being parsed, the name stack, the last type parsed,
// the iteration level) and the diagnostics the parser prints, kept as a list
// of kinds without their text and line. Pretty printing is switched off
// (printToken returns at once), so `indent_level`, `at_bol` and
// `parameter_num` are written and never read, and the model leaves them out.
//
// The productions return C ints: NORMAL (0), ERROR (-1), a TYPE_KIND
// (TPINT .. TPPROC) or TPRERROR (7). error() prints and returns ERROR, and
// ERROR is also the result of the failing productions that the callers only
// compare with TPRERROR, so parsing often goes on after an error has been
// reported; the model keeps every comparison as written. `halted` records the
// points where the C program stops: writing through a NULL `type`, reading
// through the NULL type of an entry, and the exit(1) of processVarNameStack.
module Parse4 {
  import opened Wrappers
  import opened Lpp
  import opened HashMap
  import opened Symbols
  import opened Grammar
  import opened Typing4

  /** The diagnostics of 4/parse.c, by kind. `Expected(t)` is "Expected" and
      the token `t` (TNAME for the variable, procedure and program names,
      TNUMBER for "number", TREAD and TWRITE for the two input and output
      keywords); `ExpectedKind(k)` is "Expected integer" or "Expected
      boolean"; `InvalidTypeKind(k)` is the report of decodeTYPEKINDtoID for
      a kind with no type keyword. */
  datatype Diag =
    | Expected(token: int)
    | ExpectedType
    | ArraySizeZero
    | ExpectedFactor
    | ExpectedKind(kind: int)
    | ExpectedStandardKind
    | TypeMismatch(kind: int)
    | InvalidTypeKind(kind: int)
    | VariableAlreadyDefined(name: string)
    | ProcedureAlreadyDefined(name: string)
    | UndefinedVariable(name: string)
    | UndefinedProcedure
    | RecursiveCall
    | TooManyArguments
    | ArgumentMismatch
    | TooFewArguments
    | BreakOutsideLoop
    | Aborted

  /** What decodeTYPEKINDtoID reports while a message naming `kind` is
      built: nothing for a standard or array kind, an invalid kind report
      otherwise. */
  function KindNote(kind: int): (d: seq<Diag>)
    ensures |d| <= 1 && (d == [] <==> DecodeKindToId(kind).Some?)
  {
    if DecodeKindToId(kind).Some? then [] else [InvalidTypeKind(kind)]
  }

  /** Every entry of the table is filed under its own name. Every insertion
      of 4/parse.c keeps this: the key is the new entry's name. */
  ghost predicate FiledUnderName(t: Table<Id>)
  {
    forall b, i :: 0 <= b < |t| && 0 <= i < |t[b]| ==> t[b][i].value.name == t[b][i].key
  }

  /** In such a table the entry found for a key carries that name. */
  lemma GetFiledUnderName(t: Table<Id>, key: string)
    requires |t| > 0 && FiledUnderName(t) && TableGet(t, key).Some?
    ensures TableGet(t, key).value.name == key
  {
    var b := Bucket(key, |t|);
    var i := FirstIndex(t[b], key);
    assert t[b][i].value.name == t[b][i].key;
  }

  /** Filing an entry under its own name keeps the property. */
  lemma PutFiledUnderName(t: Table<Id>, key: string, e: Id)
    requires |t| > 0 && FiledUnderName(t) && e.name == key
    ensures FiledUnderName(TablePut(t, key, e))
  {
    var b := Bucket(key, |t|);
    var c := t[b];
    var k := FirstIndex(c, key);
    var r: Table<Id> := TablePut(t, key, e);
    forall b': int, i: int | 0 <= b' < |r| && 0 <= i < |r[b']| ensures r[b'][i].value.name == r[b'][i].key {
      if b' == b {
        if k < |c| {
          if i != k {
            assert r[b'][i] == c[i];
          }
        } else if i > 0 {
          assert r[b'][i] == c[i - 1];
        }
      } else {
        assert r[b'] == t[b'];
      }
    }
  }

  /** processVarNameStack as 4/parse.c writes it: the names come off the
      stack last first; an absent name is entered with a copy of the last
      type parsed; a present entry with the same name is reported as already
      defined and the program exits (None); a present entry under another
      name is passed over. */
  function DeclareVarsChecked(t: Table<Id>, vars: seq<Var>, procName: Option<string>, ty: Option<Type>): (r: Option<Table<Id>>)
    requires |t| > 0
    ensures r.Some? ==> |r.value| == |t|
    decreases |vars|
  {
    if vars == [] then Some(t)
    else
      var v := vars[|vars| - 1];
      var found := TableGet(t, v.name);
      if found.None? then DeclareVarsChecked(TablePut(t, v.name, VarEntry(v, procName, ty)), vars[..|vars| - 1], procName, ty)
      else if v.name == found.value.name then None
      else DeclareVarsChecked(t, vars[..|vars| - 1], procName, ty)
  }

  /** In a table whose entries are filed under their names, the pass-over
      branch never runs, and the declarations are those of 03/parse.c. */
  lemma {:induction false} DeclareVarsCheckedIsDeclareVars(t: Table<Id>, vars: seq<Var>, procName: Option<string>, ty: Option<Type>)
    requires |t| > 0 && FiledUnderName(t)
    ensures DeclareVarsChecked(t, vars, procName, ty) == DeclareVars(t, vars, procName, ty)
    decreases |vars|
  {
    if vars != [] {
      var v := vars[|vars| - 1];
      if TableGet(t, v.name).None? {
        PutFiledUnderName(t, v.name, VarEntry(v, procName, ty));
        DeclareVarsCheckedIsDeclareVars(TablePut(t, v.name, VarEntry(v, procName, ty)), vars[..|vars| - 1], procName, ty);
      } else {
        GetFiledUnderName(t, v.name);
      }
    }
  }

  /** So a variable declared twice, in the table or twice on the stack,
      stops the program, and the declarations go through when the names are
      fresh. */
  lemma AlreadyDefinedStops(t: Table<Id>, vars: seq<Var>, procName: Option<string>, ty: Option<Type>)
    requires |t| > 0 && FiledUnderName(t)
    ensures DeclareVarsChecked(t, vars, procName, ty).None? <==> !FreshNames(t, vars)
  {
    DeclareVarsCheckedIsDeclareVars(t, vars, procName, ty);
    DeclareVarsSucceeds(t, vars, procName, ty);
  }

  /** The check parseCall makes as it reads the arguments in order against
      the parameter kinds: the first argument with no parameter left is one
      too many, the first whose kind is not its parameter's a mismatch. */
  function ArgumentError(args: seq<int>, params: seq<int>): Option<Diag>
    decreases |args|
  {
    if args == [] then None
    else if params == [] then Some(TooManyArguments)
    else if args[0] != params[0] then Some(ArgumentMismatch)
    else ArgumentError(args[1..], params[1..])
  }

  /** The arguments pass the check exactly when they are a prefix of the
      parameter kinds. */
  lemma {:induction false} ArgumentErrorNone(args: seq<int>, params: seq<int>)
    ensures ArgumentError(args, params).None? <==> |args| <= |params| && args == params[..|args|]
    decreases |args|
  {
    if args != [] && params != [] {
      ArgumentErrorNone(args[1..], params[1..]);
      if args[0] == params[0] && |args| <= |params| && args[1..] == params[1..][..|args| - 1] {
        assert args == [args[0]] + args[1..];
        assert params[..|args|] == [params[0]] + params[1..][..|args| - 1];
      }
      if |args| <= |params| && args == params[..|args|] {
        assert args[1..] == params[1..][..|args| - 1];
      }
    }
  }

  /** One more argument behind arguments that passed: too many when no
      parameter is left, a mismatch when its kind is not the next
      parameter's. */
  lemma {:induction false} ArgumentErrorSnoc(args: seq<int>, params: seq<int>, a: int)
    requires ArgumentError(args, params).None?
    ensures ArgumentError(args + [a], params) ==
      (if |args| >= |params| then Some(TooManyArguments)
       else if a != params[|args|] then Some(ArgumentMismatch) else None)
    decreases |args|
  {
    ArgumentErrorNone(args, params);
    if args != [] {
      assert (args + [a])[1..] == args[1..] + [a];
      ArgumentErrorSnoc(args[1..], params[1..], a);
    }
  }

  /** A whole call passes the argument checks and the final "too few"
      check exactly when the argument kinds are the parameter kinds. */
  lemma CallArgumentsMatch(args: seq<int>, params: seq<int>)
    ensures (ArgumentError(args, params).None? && |args| == |params|) <==> args == params
  {
    ArgumentErrorNone(args, params);
  }

  /** One more argument against the rest `rest` of the parameter list
      whose kinds follow the arguments `args` read so far: it is one too
      many when nothing is left, a mismatch when it differs from the next
      kind, and otherwise it is that kind and the list goes on. */
  lemma ChainPasses(params: seq<int>, args: seq<int>, rest: Option<Type>)
    requires params == args + ChainKinds(rest)
    ensures ArgumentError(args, params).None?
  {
    assert params[..|args|] == args;
    ArgumentErrorNone(args, params);
  }

  lemma ChainStep(params: seq<int>, args: seq<int>, rest: Option<Type>, a: int)
    requires params == args + ChainKinds(rest)
    ensures ArgumentError(args, params).None?
    ensures ArgumentError(args + [a], params) ==
      (if rest.None? then Some(TooManyArguments)
       else if a != rest.value.ttype then Some(ArgumentMismatch) else None)
    ensures rest.Some? && a == rest.value.ttype ==> params == (args + [a]) + ChainKinds(rest.value.paratp)
  {
    ChainPasses(params, args, rest);
    ArgumentErrorSnoc(args, params, a);
    if rest.Some? {
      assert params[|args|] == rest.value.ttype;
    }
  }

  /** parse: sets up an empty global table and parses the program; a
      program in error is reported as aborted, unless it stopped the C
      program. The cross reference table is not printed. */
  method Parse(toks: seq<Token>) returns (r: int, halted: bool, diags: seq<Diag>)
    requires |toks| > 0 && toks[|toks| - 1].id == 0
    ensures r == NORMAL || r == ERROR
    ensures halted ==> r == ERROR
    ensures r == NORMAL ==> IdAt(toks, 0) == TPROGRAM && IdAt(toks, 1) == TNAME && IdAt(toks, 2) == TSEMI
    ensures r == ERROR && !halted ==> |diags| > 0 && diags[|diags| - 1] == Aborted
    ensures IdAt(toks, 0) != TPROGRAM ==> !halted && diags == [Expected(TPROGRAM), Aborted]
  {
    var p := new Parser(toks);
    r := p.ParseProgram();
    if r == ERROR && !p.halted {
      p.Report(Aborted);
    }
    halted := p.halted;
    diags := p.diags;
  }

  class Parser {
    const toks: seq<Token>
    var pos: nat
    var halted: bool
    var iterationLevel: int
    var scopes: Scopes
    var procName: Option<string>
    var varNames: seq<Var>
    var curType: Option<Type>
    var diags: seq<Diag>

    /** The cursor stays inside the token list, stepping past the EOF token
        crashes, and both tables have HASHSIZE buckets. */
    ghost predicate Valid()
      reads this`pos, this`halted, this`iterationLevel, this`scopes
    {
      |toks| > 0 && toks[|toks| - 1].id == 0 && pos <= |toks| && (pos == |toks| ==> halted) &&
      iterationLevel >= 0 && ScopesOk(scopes)
    }

    /** The state parse sets up: `cur` at the first token, the global table
        empty and current, no procedure, an empty name stack, no type yet,
        nothing reported. */
    constructor (toks: seq<Token>)
      requires |toks| > 0 && toks[|toks| - 1].id == 0
      ensures Valid() && this.toks == toks && pos == 0 && !halted && iterationLevel == 0
      ensures !scopes.inLocal && forall name :: TableGet(scopes.global, name) == None
      ensures procName == None && varNames == [] && curType == None && diags == []
    {
      this.toks := toks;
      pos := 0;
      halted := false;
      iterationLevel := 0;
      EmptyTableIsEmpty<Id>(HASHSIZE);
      scopes := Scopes(EmptyTable(HASHSIZE), EmptyTable(HASHSIZE), false);
      procName := None;
      varNames := [];
      curType := None;
      diags := [];
    }

    /** consumeToken: moves `cur` to the next token; moving past the EOF
        token leaves `cur` NULL, and the next access crashes. */
    method Consume()
      requires Valid() && !halted
      modifies this`pos, this`halted
      ensures Valid() && pos == old(pos) + 1 && (halted <==> pos == |toks|)
      ensures IdAt(toks, old(pos)) != 0 ==> !halted
    {
      pos := pos + 1;
      halted := pos == |toks|;
    }

    /** error(): the message is printed; here its kind is recorded. */
    method Report(d: Diag)
      modifies this`diags
      ensures diags == old(diags) + [d]
    {
      diags := diags + [d];
    }

    /** An error whose message names `kind` through decodeTYPEKINDtoID,
        which reports an invalid kind first. */
    method ReportNaming(d: Diag, kind: int)
      modifies this`diags
      ensures diags == old(diags) + KindNote(kind) + [d]
    {
      if DecodeKindToId(kind).None? {
        diags := diags + [InvalidTypeKind(kind)];
      }
      diags := diags + [d];
    }

    /** lookupAndAddIref, on the parser's tables. */
    method LookupAndAddIref(name: string, line: int) returns (entry: Option<Id>)
      requires Valid()
      modifies this`scopes
      ensures Valid() && (entry, scopes) == Symbols.LookupAndAddIref(old(scopes), name, line)
    {
      var found := Symbols.LookupAndAddIref(scopes, name, line);
      entry := found.0;
      scopes := found.1;
    }

    /** enterScope: a fresh local table becomes current. */
    method EnterScope()
      requires Valid()
      modifies this`scopes
      ensures Valid() && scopes == Symbols.EnterScope(old(scopes))
    {
      scopes := Symbols.EnterScope(scopes);
    }

    /** exitScope: forgets the procedure name and makes the global table
        current again; the local table is freed without being printed. */
    method ExitScope()
      requires Valid()
      modifies this`scopes, this`procName
      ensures Valid() && procName == None && scopes == old(scopes).(inLocal := false)
    {
      procName := None;
      scopes := scopes.(inLocal := false);
    }

    /** parseType: a standard type, or `array [ NUMBER ] of` a standard type
        with a size other than 0. The result is the kind of the type (the
        array kind for an array), and `type` becomes the record the type
        denotes; each failure reports what was expected. */
    method ParseType() returns (r: int)
      requires Valid() && !halted
      modifies this`pos, this`halted, this`curType, this`diags
      ensures Valid() && !halted && old(pos) <= pos
      ensures r != ERROR <==>
        IsStdType(IdAt(toks, old(pos))) || (ArrayTypeAt(toks, old(pos)) && toks[old(pos) + 2].num != 0)
      ensures r != ERROR ==>
        var t := TypeDenoted(toks, old(pos));
        pos == old(pos) + (if IsStdType(IdAt(toks, old(pos))) then 1 else 6) && curType == Some(t) &&
        r == (if t.etp.None? then t.ttype else t.etp.value.ttype) && diags == old(diags)
      ensures r == ERROR ==>
        curType == old(curType) && |diags| == |old(diags)| + 1 && diags[..|old(diags)|] == old(diags)
      ensures ArrayTypeAt(toks, old(pos)) && toks[old(pos) + 2].num == 0 ==>
        r == ERROR && pos == old(pos) + 2 && diags == old(diags) + [ArraySizeZero]
    {
      var p := pos;
      if IsStdType(IdAt(toks, pos)) {
        r := DecodeIdToKind(IdAt(toks, pos), false);
        curType := Some(TypeDenoted(toks, pos));
        Consume();
      } else if IdAt(toks, pos) == TARRAY {
        Consume();
        if IdAt(toks, pos) != TLSQPAREN { Report(Expected(TLSQPAREN)); return ERROR; }
        Consume();
        if IdAt(toks, pos) != TNUMBER { Report(Expected(TNUMBER)); return ERROR; }
        if toks[pos].num == 0 { Report(ArraySizeZero); return ERROR; }
        Consume();
        if IdAt(toks, pos) != TRSQPAREN { Report(Expected(TRSQPAREN)); return ERROR; }
        Consume();
        if IdAt(toks, pos) != TOF { Report(Expected(TOF)); return ERROR; }
        Consume();
        if !IsStdType(IdAt(toks, pos)) { Report(ExpectedType); return ERROR; }
        r := DecodeIdToKind(IdAt(toks, pos), true);
        curType := Some(TypeDenoted(toks, p));
        Consume();
      } else {
        Report(ExpectedType);
        return ERROR;
      }
    }

    /** parseVarNames: `NAME {, NAME}`, pushing each name with its line onto
        the name stack. A first token that is not a name fails silently, a
        comma without a name behind it is reported. */
    method ParseVarNames() returns (r: int)
      requires Valid() && !halted
      modifies this`pos, this`halted, this`varNames, this`diags
      ensures Valid() && !halted && old(pos) <= pos
      ensures varNames == old(varNames) + NamesIn(toks, old(pos), pos)
      ensures IdAt(toks, old(pos)) != TNAME ==> r == ERROR && pos == old(pos) && diags == old(diags)
      ensures r == NORMAL ==>
        IdAt(toks, old(pos)) == TNAME && NameListAt(toks, old(pos), pos) && IdAt(toks, pos) != TCOMMA &&
        diags == old(diags)
      ensures r == ERROR ==>
        (pos == old(pos) && IdAt(toks, pos) != TNAME && diags == old(diags)) ||
        (NameListAt(toks, old(pos), pos - 1) && IdAt(toks, pos - 1) == TCOMMA && IdAt(toks, pos) != TNAME &&
         diags == old(diags) + [Expected(TNAME)])
      ensures r == NORMAL || r == ERROR
    {
      ghost var p := pos;
      if IdAt(toks, pos) != TNAME { return ERROR; }
      NamesInPush(toks, p, pos, old(varNames), varNames);
      varNames := varNames + [Var(toks[pos].lineNo, toks[pos].str)];
      Consume();
      while IdAt(toks, pos) == TCOMMA
        invariant Valid() && !halted && IdAt(toks, p) == TNAME && NameListAt(toks, p, pos)
        invariant varNames == old(varNames) + NamesIn(toks, p, pos) && diags == old(diags)
        decreases |toks| - pos
      {
        NamesInSkip(toks, p, pos);
        Consume();
        if IdAt(toks, pos) != TNAME {
          Report(Expected(TNAME));
          return ERROR;
        }
        NamesInPush(toks, p, pos, old(varNames), varNames);
        varNames := varNames + [Var(toks[pos].lineNo, toks[pos].str)];
        Consume();
      }
      return NORMAL;
    }

    /** processVarNameStack: declares the stacked names in the current table
        with the last type parsed (DeclareVarsChecked), emptying the stack; a
        name defined before is reported and the program exits. */
    method ProcessVarNameStack()
      requires Valid() && !halted
      modifies this`scopes, this`varNames, this`halted, this`diags
      ensures Valid()
      ensures var d := DeclareVarsChecked(Current(old(scopes)), old(varNames), procName, curType);
        (halted <==> d.None?) &&
        (d.Some? ==> scopes == WithCurrent(old(scopes), d.value) && varNames == [] && diags == old(diags))
      ensures halted ==> |diags| == |old(diags)| + 1 && diags[|old(diags)|].VariableAlreadyDefined?
    {
      ghost var d := DeclareVarsChecked(Current(scopes), varNames, procName, curType);
      while varNames != []
        invariant Valid() && !halted && scopes.inLocal == old(scopes.inLocal) && diags == old(diags)
        invariant scopes.inLocal ==> scopes.global == old(scopes.global)
        invariant !scopes.inLocal ==> scopes.local == old(scopes.local)
        invariant DeclareVarsChecked(Current(scopes), varNames, procName, curType) == d
        decreases |varNames|
      {
        var v := varNames[|varNames| - 1];
        varNames := varNames[..|varNames| - 1];
        var t := Current(scopes);
        var value := TableGet(t, v.name);
        if value.None? {
          scopes := WithCurrent(scopes, TablePut(t, v.name, VarEntry(v, procName, curType)));
        } else if v.name == value.value.name {
          Report(VariableAlreadyDefined(v.name));
          halted := true;
          return;
        }
      }
    }

    /** The `;` that ends a group of a variable declaration: the stacked
        names are declared, then it is consumed. */
    method EndVarGroup() returns (r: int)
      requires Valid() && !halted
      modifies this`pos, this`halted, this`varNames, this`scopes, this`diags
      ensures Valid() && old(pos) <= pos && (halted ==> r == ERROR)
      ensures IdAt(toks, old(pos)) != TSEMI ==> r == ERROR && pos == old(pos) && diags == old(diags) + [Expected(TSEMI)]
      ensures r == NORMAL ==> IdAt(toks, old(pos)) == TSEMI && pos == old(pos) + 1 && varNames == []
      ensures r == NORMAL || r == ERROR
    {
      if IdAt(toks, pos) != TSEMI {
        Report(Expected(TSEMI));
        return ERROR;
      }
      ProcessVarNameStack();
      if halted { return ERROR; }
      Consume();
      return NORMAL;
    }

    /** One `names : type ;` group of a variable declaration. parseType's
        result is compared with TPRERROR, which it never returns, so a type
        in error is reported and the group goes on to its `;`, declaring the
        names with the type parsed before. */
    method ParseVarGroup() returns (r: int)
      requires Valid() && !halted
      modifies this`pos, this`halted, this`varNames, this`scopes, this`curType, this`diags
      ensures Valid() && old(pos) <= pos && (halted ==> r == ERROR)
      ensures IdAt(toks, old(pos)) != TNAME ==> r == ERROR && pos == old(pos) && diags == old(diags) + [Expected(TNAME)]
      ensures r == NORMAL ==> IdAt(toks, old(pos)) == TNAME && pos >= old(pos) + 3 && IdAt(toks, pos - 1) == TSEMI
      ensures r == NORMAL ==> varNames == []
      ensures r == NORMAL || r == ERROR
    {
      r := ParseVarNames();
      if r == ERROR {
        Report(Expected(TNAME));
        return ERROR;
      }
      if IdAt(toks, pos) != TCOLON {
        Report(Expected(TCOLON));
        return ERROR;
      }
      Consume();
      var kind := ParseType();
      r := EndVarGroup();
    }

    /** parseVarDeclaration: `var` followed by one or more groups. */
    method ParseVarDeclaration() returns (r: int)
      requires Valid() && !halted
      modifies this`pos, this`halted, this`varNames, this`scopes, this`curType, this`diags
      ensures Valid() && old(pos) <= pos && (halted ==> r == ERROR)
      ensures IdAt(toks, old(pos)) != TVAR ==> r == ERROR && pos == old(pos) && diags == old(diags) + [Expected(TVAR)]
      ensures r == NORMAL ==>
        IdAt(toks, old(pos)) == TVAR && pos >= old(pos) + 4 && IdAt(toks, pos - 1) == TSEMI &&
        IdAt(toks, pos) != TNAME && varNames == []
      ensures r == NORMAL || r == ERROR
    {
      if IdAt(toks, pos) != TVAR {
        Report(Expected(TVAR));
        return ERROR;
      }
      Consume();
      r := ParseVarGroup();
      if r == ERROR { return ERROR; }
      while IdAt(toks, pos) == TNAME
        invariant Valid() && !halted && pos >= old(pos) + 4 && IdAt(toks, pos - 1) == TSEMI && varNames == []
        decreases |toks| - pos
      {
        r := ParseVarGroup();
        if r == ERROR { return ERROR; }
      }
      return NORMAL;
    }

    // Expressions. Each production returns the kind of what it parsed, and
    // is proved to compute the typing function of Typing4 for the position,
    // the tables and the last type it starts from; the type rules are lemmas
    // about those functions.

    /** The parser is where the typing `t` leaves it, and `r` is its result. */
    ghost predicate Yields(t: Typing, r: int)
      reads this`pos, this`halted, this`scopes
    {
      r == t.kind && halted == t.halt && (!halted ==> pos == t.end && scopes == t.scopes)
    }

    /** parseTerm: `factor {mul-op factor}`. */
    method ParseTerm() returns (r: int)
      requires Valid() && !halted
      modifies this`pos, this`halted, this`scopes, this`curType, this`diags
      decreases |toks| - pos, 4
      ensures Valid() && old(pos) <= pos && (halted ==> r == ERROR)
      ensures Yields(TermKind(toks, old(pos), old(scopes), old(curType).Some?), r)
      ensures curType.Some? == old(curType).Some?
      ensures !StartsFactor(IdAt(toks, old(pos))) && !IsMulOp(IdAt(toks, old(pos))) ==>
        r == ERROR && pos == old(pos) && diags == old(diags) + [ExpectedFactor]
    {
      ghost var ht := curType.Some?;
      var f := ParseFactor();
      if halted { return ERROR; }
      if f == TPRERROR { return ERROR; }
      r := f;
      while IsMulOp(IdAt(toks, pos))
        invariant Valid() && !halted && old(pos) <= pos && curType.Some? == ht
        invariant TermKind(toks, old(pos), old(scopes), ht) == TermRest(toks, pos, r, scopes, ht)
        invariant !StartsFactor(IdAt(toks, old(pos))) && !IsMulOp(IdAt(toks, old(pos))) ==>
          pos == old(pos) && diags == old(diags) + [ExpectedFactor]
        decreases |toks| - pos
      {
        var mulop := IdAt(toks, pos);
        Consume();
        var g := ParseFactor();
        if halted { return ERROR; }
        if g == TPRERROR { return ERROR; }
        if mulop == TAND && r != TPBOOL {
          ReportNaming(ExpectedKind(TPBOOL), r);
          return TPRERROR;
        } else if (mulop == TSTAR || mulop == TDIV) && r != TPINT {
          ReportNaming(ExpectedKind(TPINT), r);
          return TPRERROR;
        }
      }
    }

    /** parseSimpleExpression: `[+|-] term {add-op term}`. */
    method ParseSimpleExpression() returns (r: int)
      requires Valid() && !halted
      modifies this`pos, this`halted, this`scopes, this`curType, this`diags
      decreases |toks| - pos, 5
      ensures Valid() && old(pos) <= pos && (halted ==> r == ERROR)
      ensures Yields(SimpleKind(toks, old(pos), old(scopes), old(curType).Some?), r)
      ensures curType.Some? == old(curType).Some?
    {
      ghost var ht := curType.Some?;
      var signed := false;
      if IdAt(toks, pos) == TPLUS || IdAt(toks, pos) == TMINUS {
        Consume();
        signed := true;
      }
      r := ParseTerm();
      if halted { return ERROR; }
      if r == TPRERROR { return TPRERROR; }
      if signed {
        if r != TPINT {
          Report(ExpectedKind(TPINT));
          return ERROR;
        }
        r := TPINT;
      }
      while IsAddOp(IdAt(toks, pos))
        invariant Valid() && !halted && old(pos) <= pos && curType.Some? == ht
        invariant SimpleKind(toks, old(pos), old(scopes), ht) == SimpleRest(toks, pos, r, scopes, ht)
        decreases |toks| - pos
      {
        var op := IdAt(toks, pos);
        var addop := if op == TOR then TPBOOL else TPINT;
        Consume();
        var t := ParseTerm();
        if halted { return ERROR; }
        if t == TPRERROR { return TPRERROR; }
        if addop != t {
          Report(TypeMismatch(addop));
          return ERROR;
        }
      }
    }

    /** parseExpression: `simple {rel-op simple}`. */
    method ParseExpression() returns (r: int)
      requires Valid() && !halted
      modifies this`pos, this`halted, this`scopes, this`curType, this`diags
      decreases |toks| - pos, 6
      ensures Valid() && old(pos) <= pos && (halted ==> r == ERROR)
      ensures Yields(ExprKind(toks, old(pos), old(scopes), old(curType).Some?), r)
      ensures curType.Some? == old(curType).Some?
      ensures !halted && r != TPRERROR ==> !IsRelOp(IdAt(toks, pos))
    {
      ghost var ht := curType.Some?;
      r := ParseSimpleExpression();
      if halted { return ERROR; }
      if r == TPRERROR { return TPRERROR; }
      while IsRelOp(IdAt(toks, pos))
        invariant Valid() && !halted && old(pos) <= pos && curType.Some? == ht
        invariant ExprKind(toks, old(pos), old(scopes), ht) == ExprRest(toks, pos, r, scopes, ht)
        decreases |toks| - pos
      {
        Consume();
        var s := ParseSimpleExpression();
        if halted { return ERROR; }
        if s == TPRERROR { return TPRERROR; }
        r := TPBOOL;
      }
    }

    /** A constant factor: its kind (integer for a number, char for a string,
        boolean for true and false) is written into the last type parsed,
        which crashes when no type has been parsed yet. */
    method ParseConstant() returns (r: int)
      requires Valid() && !halted
      requires IdAt(toks, pos) == TNUMBER || IdAt(toks, pos) == TTRUE || IdAt(toks, pos) == TFALSE ||
               IdAt(toks, pos) == TSTRING
      modifies this`pos, this`halted, this`curType
      ensures Valid() && (halted <==> old(curType).None?) && (halted ==> r == ERROR && pos == old(pos))
      ensures !halted ==>
        r == DecodeIdToKind(IdAt(toks, old(pos)), false) && IsStdKind(r) && pos == old(pos) + 1 &&
        curType == Some(old(curType).value.(ttype := r))
      ensures curType.Some? == old(curType).Some?
    {
      if curType.None? {
        halted := true;
        return ERROR;
      }
      r := DecodeIdToKind(IdAt(toks, pos), false);
      curType := Some(curType.value.(ttype := r));
      Consume();
    }

    /** A cast `standard-type ( expression )`: the keyword's kind is written
        into the last type parsed (crashing when there is none). */
    method ParseCast() returns (r: int)
      requires Valid() && !halted && IsStdType(IdAt(toks, pos))
      modifies this`pos, this`halted, this`scopes, this`curType, this`diags
      decreases |toks| - pos, 2
      ensures Valid() && old(pos) <= pos && (halted ==> r == ERROR)
      ensures Yields(CastKind(toks, old(pos), old(scopes), old(curType).Some?), r)
      ensures curType.Some? == old(curType).Some?
      ensures old(curType).None? ==> halted && pos == old(pos)
    {
      if curType.None? {
        halted := true;
        return ERROR;
      }
      var kind := DecodeIdToKind(IdAt(toks, pos), false);
      curType := Some(curType.value.(ttype := kind));
      Consume();
      if IdAt(toks, pos) != TLPAREN {
        Report(Expected(TLPAREN));
        return TPRERROR;
      }
      Consume();
      var e := ParseExpression();
      if halted { return ERROR; }
      if e == TPRERROR { return TPRERROR; }
      if !IsStdKind(e) {
        Report(ExpectedStandardKind);
        return TPRERROR;
      }
      if IdAt(toks, pos) != TRPAREN {
        Report(Expected(TRPAREN));
        return TPRERROR;
      }
      Consume();
      return kind;
    }

    /** parseFactor: a variable, a constant, `( expression )`, `not factor`
        or a cast; a token no factor starts with is reported and nothing is
        consumed. */
    method ParseFactor() returns (r: int)
      requires Valid() && !halted
      modifies this`pos, this`halted, this`scopes, this`curType, this`diags
      decreases |toks| - pos, 3
      ensures Valid() && old(pos) <= pos && (halted ==> r == ERROR)
      ensures Yields(FactorKind(toks, old(pos), old(scopes), old(curType).Some?), r)
      ensures curType.Some? == old(curType).Some?
      ensures !StartsFactor(IdAt(toks, old(pos))) ==> r == ERROR && pos == old(pos) && diags == old(diags) + [ExpectedFactor]
    {
      var id := IdAt(toks, pos);
      if id == TNAME {
        r := ParseVar();
        if halted { return ERROR; }
        if r == TPRERROR { return TPRERROR; }
      } else if id == TNUMBER || id == TFALSE || id == TTRUE || id == TSTRING {
        r := ParseConstant();
      } else if id == TLPAREN {
        Consume();
        r := ParseExpression();
        if halted { return ERROR; }
        if r == TPRERROR { return TPRERROR; }
        if IdAt(toks, pos) != TRPAREN {
          Report(Expected(TRPAREN));
          return ERROR;
        }
        Consume();
      } else if id == TNOT {
        Consume();
        r := ParseFactor();
        if halted { return ERROR; }
        if r == TPRERROR { return TPRERROR; }
        if r != TPBOOL {
          Report(ExpectedKind(TPBOOL));
          return ERROR;
        }
      } else if IsStdType(id) {
        r := ParseCast();
      } else {
        Report(ExpectedFactor);
        return ERROR;
      }
    }

    /** parseVar: `NAME [ [ expression ] ]`. A token other than a name and an
        unknown name are reported with nothing consumed. */
    method ParseVar() returns (r: int)
      requires Valid() && !halted
      modifies this`pos, this`halted, this`scopes, this`curType, this`diags
      decreases |toks| - pos, 1
      ensures Valid() && old(pos) <= pos && (halted ==> r == ERROR)
      ensures Yields(VarKind(toks, old(pos), old(scopes), old(curType).Some?), r)
      ensures curType.Some? == old(curType).Some?
      ensures IdAt(toks, old(pos)) != TNAME ==> r == ERROR && pos == old(pos) && diags == old(diags) + [Expected(TNAME)]
      ensures IdAt(toks, old(pos)) == TNAME && Visible(old(scopes), toks[old(pos)].str).None? ==>
        r == ERROR && pos == old(pos) && scopes == old(scopes) &&
        diags == old(diags) + [UndefinedVariable(toks[old(pos)].str)]
      ensures IdAt(toks, old(pos)) == TNAME && IdAt(toks, old(pos) + 1) != TLSQPAREN &&
              Visible(old(scopes), toks[old(pos)].str).Some? ==>
        diags == old(diags)
    {
      if IdAt(toks, pos) != TNAME {
        Report(Expected(TNAME));
        return ERROR;
      }
      var name := toks[pos].str;
      LookupAndAddIrefSpec(scopes, name, toks[pos].lineNo, name);
      var entry := LookupAndAddIref(name, toks[pos].lineNo);
      if entry.None? {
        Report(UndefinedVariable(name));
        return ERROR;
      }
      Consume();
      if IdAt(toks, pos) == TLSQPAREN {
        Consume();
        var e := ParseExpression();
        if halted { return ERROR; }
        if e == TPRERROR { return ERROR; }
        if e != TPINT {
          ReportNaming(ExpectedKind(TPINT), e);
          return ERROR;
        }
        if IdAt(toks, pos) != TRSQPAREN {
          Report(Expected(TRSQPAREN));
          return ERROR;
        }
        Consume();
        if entry.value.itp.None? || entry.value.itp.value.etp.None? {
          halted := true;
          return ERROR;
        }
        return entry.value.itp.value.etp.value.ttype;
      }
      if entry.value.itp.None? {
        halted := true;
        return ERROR;
      }
      return entry.value.itp.value.ttype;
    }

    // Statements. None of them touches the name stack or the procedure name;
    // the iteration level only grows.

    /** parseAssignment: `variable := expression`, typed as AssignKind says:
        the kinds of the two sides are not compared, and only TPRERROR on
        either side fails the statement. */
    method ParseAssignment() returns (r: int)
      requires Valid() && !halted
      modifies this`pos, this`halted, this`scopes, this`curType, this`diags
      decreases |toks| - pos, 7
      ensures Valid() && old(pos) <= pos && (halted ==> r == ERROR)
      ensures Yields(AssignKind(toks, old(pos), old(scopes), old(curType).Some?), r)
      ensures curType.Some? == old(curType).Some?
      ensures var v := VarKind(toks, old(pos), old(scopes), old(curType).Some?);
        !v.halt && v.kind != TPRERROR && IdAt(toks, v.end) != TASSIGN ==>
          |diags| > 0 && diags[|diags| - 1] == Expected(TASSIGN)
      ensures r == NORMAL ==> pos > old(pos)
      ensures r == NORMAL && IdAt(toks, old(pos)) == TNAME ==> pos >= old(pos) + 2
      ensures r == NORMAL || r == ERROR
    {
      var v := ParseVar();
      if halted { return ERROR; }
      if v == TPRERROR { return ERROR; }
      if IdAt(toks, pos) != TASSIGN {
        Report(Expected(TASSIGN));
        return ERROR;
      }
      Consume();
      var e := ParseExpression();
      if halted { return ERROR; }
      if e == TPRERROR { return ERROR; }
      return NORMAL;
    }

    /** parseCondition: `if expression then statement [else statement]`; the
        condition must be boolean (or of the boolean array kind): a condition
        of another kind is rejected, after its kind is reported unless it is
        TPRERROR. */
    method ParseCondition() returns (r: int)
      requires Valid() && !halted
      modifies this`pos, this`halted, this`scopes, this`curType, this`iterationLevel, this`diags
      decreases |toks| - pos, 9
      ensures Valid() && old(pos) <= pos && (halted ==> r == ERROR)
      ensures iterationLevel >= old(iterationLevel)
      ensures IdAt(toks, old(pos)) != TIF ==> r == ERROR && pos == old(pos) && diags == old(diags) + [Expected(TIF)]
      ensures IdAt(toks, old(pos)) == TIF ==>
        var c := ExprKind(toks, old(pos) + 1, old(scopes), old(curType).Some?);
        (c.halt ==> halted) &&
        (r == NORMAL ==> !c.halt && (c.kind == TPBOOL || c.kind == TPARRAYBOOL) && IdAt(toks, c.end) == TTHEN) &&
        (c.kind != TPBOOL && c.kind != TPARRAYBOOL ==> r == ERROR) &&
        (!c.halt && c.kind != TPRERROR && c.kind != TPBOOL && c.kind != TPARRAYBOOL ==>
           pos == c.end && |diags| > 0 && diags[|diags| - 1] == ExpectedKind(TPBOOL))
      ensures r == NORMAL || r == ERROR
    {
      if IdAt(toks, pos) != TIF {
        Report(Expected(TIF));
        return ERROR;
      }
      Consume();
      var c := ParseExpression();
      if halted { return ERROR; }
      if c == TPRERROR { return ERROR; }
      if c != TPBOOL && c != TPARRAYBOOL {
        ReportNaming(ExpectedKind(TPBOOL), c);
        return ERROR;
      }
      if IdAt(toks, pos) != TTHEN {
        Report(Expected(TTHEN));
        return ERROR;
      }
      Consume();
      r := ParseStatement();
      if r == ERROR { return ERROR; }
      if IdAt(toks, pos) == TELSE {
        Consume();
        r := ParseStatement();
        if r == ERROR { return ERROR; }
      }
      return NORMAL;
    }

    /** parseIteration: `while expression do statement`; the condition's
        kind is not checked (any kind but TPRERROR passes), and the iteration level is raised for the body
        and never lowered again. */
    method ParseIteration() returns (r: int)
      requires Valid() && !halted
      modifies this`pos, this`halted, this`scopes, this`curType, this`iterationLevel, this`diags
      decreases |toks| - pos, 9
      ensures Valid() && old(pos) <= pos && (halted ==> r == ERROR)
      ensures iterationLevel >= old(iterationLevel)
      ensures IdAt(toks, old(pos)) != TWHILE ==> r == ERROR && pos == old(pos) && diags == old(diags) + [Expected(TWHILE)]
      ensures r == NORMAL ==> IdAt(toks, old(pos)) == TWHILE && iterationLevel > old(iterationLevel)
      ensures IdAt(toks, old(pos)) == TWHILE ==>
        var c := ExprKind(toks, old(pos) + 1, old(scopes), old(curType).Some?);
        (c.halt ==> halted) &&
        (r == NORMAL ==> !c.halt && c.kind != TPRERROR && IdAt(toks, c.end) == TDO) &&
        (!c.halt && c.kind == TPRERROR ==> r == ERROR && pos == c.end) &&
        (!c.halt && c.kind != TPRERROR && IdAt(toks, c.end) != TDO ==>
           r == ERROR && pos == c.end && |diags| > 0 && diags[|diags| - 1] == Expected(TDO)) &&
        (!c.halt && c.kind != TPRERROR && IdAt(toks, c.end) == TDO ==>
           pos >= c.end + 1 && iterationLevel > old(iterationLevel) &&
           (!StartsStatement(IdAt(toks, c.end + 1)) ==> r == NORMAL && pos == c.end + 1))
      ensures r == NORMAL || r == ERROR
    {
      if IdAt(toks, pos) != TWHILE {
        Report(Expected(TWHILE));
        return ERROR;
      }
      Consume();
      var e := ParseExpression();
      if halted { return ERROR; }
      if e == TPRERROR { return ERROR; }
      if IdAt(toks, pos) != TDO {
        Report(Expected(TDO));
        return ERROR;
      }
      Consume();
      iterationLevel := iterationLevel + 1;
      r := ParseStatement();
      if r == ERROR { return ERROR; }
      return NORMAL;
    }

    /** One argument of parseCall: an expression whose kind, unless it is
        TPRERROR, is compared with the next parameter `param`. With no
        parameter left the argument is one too many; with a parameter of
        another kind it is a mismatch; otherwise `next` is the parameter
        after it, and a comma after the argument is consumed (`more`) for
        the next one. `arg` is the expression's kind and `checked` says that
        it was compared. Against the kinds `params` of the whole list, of
        which the arguments before this one took `done`, the check is
        ArgumentError's. */
    method ParseArgument(param: Option<Type>, ghost done: seq<int>, ghost params: seq<int>)
      returns (r: int, next: Option<Type>, ghost arg: int, checked: bool, more: bool)
      requires Valid() && !halted && params == done + ChainKinds(param)
      modifies this`pos, this`halted, this`scopes, this`curType, this`diags
      decreases |toks| - pos, 7
      ensures Valid() && old(pos) <= pos && (halted ==> r == ERROR && !checked)
      ensures var e := ExprKind(toks, old(pos), old(scopes), old(curType).Some?);
        halted == e.halt && arg == e.kind && (checked <==> !e.halt && e.kind != TPRERROR) &&
        (more <==> r == NORMAL && IdAt(toks, e.end) == TCOMMA) &&
        (!halted ==> pos == (if more then e.end + 1 else e.end) && scopes == e.scopes)
      ensures curType.Some? == old(curType).Some?
      ensures !checked ==> r == ERROR
      ensures checked && param.None? ==> r == ERROR && |diags| > 0 && diags[|diags| - 1] == TooManyArguments
      ensures checked && param.Some? && arg != param.value.ttype ==>
        r == ERROR && |diags| > 0 && diags[|diags| - 1] == ArgumentMismatch
      ensures checked && param.Some? && arg == param.value.ttype ==> r == NORMAL && next == param.value.paratp
      ensures var ks := ChainKinds(param);
        checked ==> (r == NORMAL <==> ks != [] && arg == ks[0]) && (r == NORMAL ==> ChainKinds(next) == ks[1..])
      ensures ArgumentError(done, params).None?
      ensures checked && r == ERROR ==> |diags| > 0 && ArgumentError(done + [arg], params) == Some(diags[|diags| - 1])
      ensures checked && r == NORMAL ==> ArgumentError(done + [arg], params).None? && params == (done + [arg]) + ChainKinds(next)
      ensures r == NORMAL || r == ERROR
    {
      next, checked, more := None, false, false;
      ChainStep(params, done, param, ExprKind(toks, pos, scopes, curType.Some?).kind);
      var a := ParseExpression();
      arg := a;
      if halted { return ERROR, next, arg, checked, more; }
      if a == TPRERROR { return ERROR, next, arg, checked, more; }
      checked := true;
      if param.None? {
        Report(TooManyArguments);
        return ERROR, next, arg, checked, more;
      }
      if a != param.value.ttype {
        Report(ArgumentMismatch);
        return ERROR, next, arg, checked, more;
      }
      if IdAt(toks, pos) == TCOMMA {
        Consume();
        more := true;
      }
      return NORMAL, param.value.paratp, arg, checked, more;
    }

    /** The argument list of parseCall, `expression {, expression}`, read
        against the parameter list `param`: each argument takes the next
        parameter. `args` are the kinds of the arguments compared, and
        `rest` is what is left of the parameter list. */
    method ParseArguments(param: Option<Type>) returns (r: int, rest: Option<Type>, ghost args: seq<int>)
      requires Valid() && !halted
      modifies this`pos, this`halted, this`scopes, this`curType, this`diags
      decreases |toks| - pos, 8
      ensures Valid() && old(pos) <= pos && (halted ==> r == ERROR)
      ensures var a := ArgsFrom(toks, old(pos), old(scopes), old(curType).Some?, ChainKinds(param), []);
        args == a.kinds && halted == a.halt && (r == NORMAL <==> a.ok) &&
        (!halted ==> pos == a.end && scopes == a.scopes)
      ensures curType.Some? == old(curType).Some?
      ensures r == NORMAL ==> ChainKinds(param) == args + ChainKinds(rest)
      ensures ArgumentError(args, ChainKinds(param)).Some? ==>
        r == ERROR && |diags| > 0 && ArgumentError(args, ChainKinds(param)) == Some(diags[|diags| - 1])
      ensures r == NORMAL || r == ERROR
    {
      ghost var ht := curType.Some?;
      ghost var params := ChainKinds(param);
      args := [];
      rest := param;
      ghost var whole := ArgsFrom(toks, pos, scopes, ht, params, []);
      while true
        invariant Valid() && !halted && old(pos) <= pos && curType.Some? == ht
        invariant whole == ArgsFrom(toks, pos, scopes, ht, ChainKinds(rest), args)
        invariant params == args + ChainKinds(rest)
        decreases |toks| - pos
      {
        var next, checked, more;
        ghost var a;
        r, next, a, checked, more := ParseArgument(rest, args, params);
        if checked {
          args := args + [a];
        }
        if r == NORMAL {
          rest := next;
        }
        if !more { break; }
      }
    }

    /** The callee of parseCall, the name at the cursor: it is looked up
        (recording the reference) before the checks; a call of the procedure
        being parsed and a name that is not a procedure are reported, and a
        procedure's name is consumed and its parameter list returned. */
    method ParseCallee() returns (r: int, param: Option<Type>)
      requires Valid() && !halted && IdAt(toks, pos) == TNAME
      modifies this`pos, this`halted, this`scopes, this`diags
      ensures Valid() && old(pos) <= pos && (halted ==> r == ERROR)
      ensures scopes == Symbols.LookupAndAddIref(old(scopes), toks[old(pos)].str, toks[old(pos)].lineNo).1
      ensures var name := toks[old(pos)].str; var e := Visible(old(scopes), name);
        (procName == Some(name) ==> r == ERROR && !halted && diags == old(diags) + [RecursiveCall]) &&
        (procName != Some(name) && !IsProcedure(e) ==>
           r == ERROR && (halted || diags == old(diags) + [UndefinedProcedure])) &&
        (procName != Some(name) && IsProcedure(e) ==>
           r == NORMAL && !halted && pos == old(pos) + 1 && param == e.value.itp.value.paratp && diags == old(diags))
      ensures r == NORMAL || r == ERROR
    {
      param := None;
      var name := toks[pos].str;
      LookupAndAddIrefSpec(scopes, name, toks[pos].lineNo, name);
      var entry := LookupAndAddIref(name, toks[pos].lineNo);
      if procName == Some(name) {
        Report(RecursiveCall);
        return ERROR, param;
      }
      if entry.None? {
        Report(UndefinedProcedure);
        return ERROR, param;
      }
      if entry.value.itp.None? {
        halted := true;
        return ERROR, param;
      }
      if entry.value.itp.value.ttype != TPPROC {
        Report(UndefinedProcedure);
        return ERROR, param;
      }
      Consume();
      return NORMAL, entry.value.itp.value.paratp;
    }

    /** parseCall: `call NAME [ ( [expression {, expression}] ) ]`. The
        argument kinds must be the parameter kinds, in number and in order:
        the first one too many or of another kind is reported, and so is a
        list that ends before the parameters do. `params` are the kinds of
        the callee's parameters, `args` those of the arguments compared, and
        `closed` says that the argument list was read to its end. */
    method ParseCall() returns (r: int, ghost params: seq<int>, ghost args: seq<int>, ghost closed: bool)
      requires Valid() && !halted
      modifies this`pos, this`halted, this`scopes, this`curType, this`diags
      decreases |toks| - pos, 9
      ensures Valid() && old(pos) <= pos && (halted ==> r == ERROR)
      ensures IdAt(toks, old(pos)) != TCALL ==> r == ERROR && pos == old(pos) && diags == old(diags) + [Expected(TCALL)]
      ensures IdAt(toks, old(pos)) == TCALL && IdAt(toks, old(pos) + 1) == TNAME ==>
        var name := toks[old(pos) + 1].str;
        (procName == Some(name) ==> r == ERROR && diags == old(diags) + [RecursiveCall]) &&
        (procName != Some(name) && !IsProcedure(Visible(old(scopes), name)) ==>
           r == ERROR && (halted || diags == old(diags) + [UndefinedProcedure])) &&
        (procName != Some(name) && IsProcedure(Visible(old(scopes), name)) ==>
           params == ChainKinds(Visible(old(scopes), name).value.itp.value.paratp) &&
           var sc := Symbols.LookupAndAddIref(old(scopes), name, toks[old(pos) + 1].lineNo).1;
           var a := ArgsFrom(toks, old(pos) + 3, sc, old(curType).Some?, params, []);
           var listed := IdAt(toks, old(pos) + 2) == TLPAREN && IdAt(toks, old(pos) + 3) != TRPAREN;
           (listed ==>
              args == a.kinds && halted == a.halt &&
              (r == NORMAL <==> a.ok && IdAt(toks, a.end) == TRPAREN && a.kinds == params)) &&
           (!listed ==>
              args == [] && !halted &&
              (r == NORMAL <==> params == [] && (IdAt(toks, old(pos) + 2) == TLPAREN ==> IdAt(toks, old(pos) + 3) == TRPAREN))))
      ensures r == NORMAL ==>
        IdAt(toks, old(pos)) == TCALL && IdAt(toks, old(pos) + 1) == TNAME &&
        procName != Some(toks[old(pos) + 1].str) && IsProcedure(Visible(old(scopes), toks[old(pos) + 1].str)) &&
        closed && args == params
      ensures ArgumentError(args, params).Some? ==>
        r == ERROR && |diags| > 0 && diags[|diags| - 1] == ArgumentError(args, params).value
      ensures closed && ArgumentError(args, params).None? && |args| < |params| ==>
        r == ERROR && |diags| > 0 && diags[|diags| - 1] == TooFewArguments
      ensures r == NORMAL || r == ERROR
    {
      params, args, closed := [], [], false;
      if IdAt(toks, pos) != TCALL {
        Report(Expected(TCALL));
        return ERROR, params, args, closed;
      }
      Consume();
      if IdAt(toks, pos) != TNAME {
        Report(Expected(TNAME));
        return ERROR, params, args, closed;
      }
      var param;
      r, param := ParseCallee();
      if r == ERROR { return ERROR, params, args, closed; }
      params := ChainKinds(param);
      if IdAt(toks, pos) == TLPAREN {
        Consume();
        if IdAt(toks, pos) != TRPAREN {
          r, param, args := ParseArguments(param);
          if r == ERROR { return ERROR, params, args, closed; }
        }
        if IdAt(toks, pos) != TRPAREN {
          Report(Expected(TRPAREN));
          return ERROR, params, args, closed;
        }
        Consume();
      }
      closed := true;
      CallArgumentsMatch(args, params);
      if param.Some? {
        Report(TooFewArguments);
        return ERROR, params, args, closed;
      }
      return NORMAL, params, args, closed;
    }

    /** A variable of parseInput: its kind, unless it is TPRERROR, must be
        integer or char, and a comma after it is consumed (`more`) for the
        next one. `kind` is the variable's kind and `checked` says that it
        was compared; `done` are the kinds of the variables before it, all
        integer or char. */
    method ParseInputVariable(ghost done: seq<int>) returns (r: int, ghost kind: int, ghost checked: bool, more: bool)
      requires Valid() && !halted
      requires forall i :: 0 <= i < |done| ==> done[i] == TPINT || done[i] == TPCHAR
      modifies this`pos, this`halted, this`scopes, this`curType, this`diags
      ensures Valid() && old(pos) <= pos && (halted ==> r == ERROR && !checked)
      ensures var v := VarKind(toks, old(pos), old(scopes), old(curType).Some?);
        halted == v.halt && kind == v.kind && (checked <==> !v.halt && v.kind != TPRERROR) &&
        (more <==> r == NORMAL && IdAt(toks, v.end) == TCOMMA) &&
        (!halted ==> pos == (if more then v.end + 1 else v.end) && scopes == v.scopes)
      ensures curType.Some? == old(curType).Some?
      ensures !checked ==> r == ERROR
      ensures checked ==> (r == NORMAL <==> kind == TPINT || kind == TPCHAR)
      ensures checked && kind != TPINT && kind != TPCHAR ==> r == ERROR && |diags| > 0 && diags[|diags| - 1] == ExpectedKind(TPINT)
      ensures var ks := if checked then done + [kind] else done;
        (more ==> forall i :: 0 <= i < |ks| ==> ks[i] == TPINT || ks[i] == TPCHAR) &&
        (ks != [] && ks[|ks| - 1] != TPINT && ks[|ks| - 1] != TPCHAR ==>
           r == ERROR && |diags| > 0 && diags[|diags| - 1] == ExpectedKind(TPINT))
      ensures r == NORMAL || r == ERROR
    {
      checked, more := false, false;
      var k := ParseVar();
      kind := k;
      if halted { return ERROR, kind, checked, more; }
      if k == TPRERROR { return ERROR, kind, checked, more; }
      checked := true;
      if k != TPINT && k != TPCHAR {
        Report(ExpectedKind(TPINT));
        return ERROR, kind, checked, more;
      }
      if IdAt(toks, pos) == TCOMMA {
        Consume();
        more := true;
      }
      return NORMAL, kind, checked, more;
    }

    /** The variable list of parseInput, `variable {, variable}`: `kinds`
        are the kinds checked, every one but a failing last one integer or
        char. */
    method ParseInputVariables() returns (r: int, ghost kinds: seq<int>)
      requires Valid() && !halted
      modifies this`pos, this`halted, this`scopes, this`curType, this`diags
      ensures Valid() && old(pos) <= pos && (halted ==> r == ERROR)
      ensures var l := ReadVarsFrom(toks, old(pos), old(scopes), old(curType).Some?, []);
        kinds == l.kinds && halted == l.halt && (r == NORMAL <==> l.ok) &&
        (!halted ==> pos == l.end && scopes == l.scopes)
      ensures curType.Some? == old(curType).Some?
      ensures kinds != [] && kinds[|kinds| - 1] != TPINT && kinds[|kinds| - 1] != TPCHAR ==>
        r == ERROR && |diags| > 0 && diags[|diags| - 1] == ExpectedKind(TPINT)
      ensures r == NORMAL || r == ERROR
    {
      ghost var ht := curType.Some?;
      kinds := [];
      ghost var whole := ReadVarsFrom(toks, pos, scopes, ht, []);
      while true
        invariant Valid() && !halted && old(pos) <= pos && curType.Some? == ht
        invariant whole == ReadVarsFrom(toks, pos, scopes, ht, kinds)
        invariant forall i :: 0 <= i < |kinds| ==> kinds[i] == TPINT || kinds[i] == TPCHAR
        decreases |toks| - pos
      {
        ghost var k, checked;
        var more;
        r, k, checked, more := ParseInputVariable(kinds);
        if checked {
          kinds := kinds + [k];
        }
        if !more { break; }
      }
    }

    /** parseInput: `read` or `readln`, optionally followed by
        `( variable {, variable} )`; every variable must be of integer or
        char kind: `kinds` are the kinds checked, and the first of another
        kind is reported. */
    method ParseInput() returns (r: int, ghost kinds: seq<int>)
      requires Valid() && !halted
      modifies this`pos, this`halted, this`scopes, this`curType, this`diags
      decreases |toks| - pos, 8
      ensures Valid() && old(pos) <= pos && (halted ==> r == ERROR)
      ensures IdAt(toks, old(pos)) != TREAD && IdAt(toks, old(pos)) != TREADLN ==>
        r == ERROR && pos == old(pos) && diags == old(diags) + [Expected(TREAD)]
      ensures (IdAt(toks, old(pos)) == TREAD || IdAt(toks, old(pos)) == TREADLN) && IdAt(toks, old(pos) + 1) == TLPAREN ==>
        var l := ReadVarsFrom(toks, old(pos) + 2, old(scopes), old(curType).Some?, []);
        kinds == l.kinds && halted == l.halt &&
        (r == NORMAL <==> l.ok && IdAt(toks, l.end) == TRPAREN) && (r == NORMAL ==> pos == l.end + 1)
      ensures (IdAt(toks, old(pos)) == TREAD || IdAt(toks, old(pos)) == TREADLN) && IdAt(toks, old(pos) + 1) != TLPAREN ==>
        r == NORMAL && kinds == [] && pos == old(pos) + 1
      ensures kinds != [] && kinds[|kinds| - 1] != TPINT && kinds[|kinds| - 1] != TPCHAR ==>
        r == ERROR && |diags| > 0 && diags[|diags| - 1] == ExpectedKind(TPINT)
      ensures r == NORMAL || r == ERROR
    {
      kinds := [];
      if IdAt(toks, pos) != TREAD && IdAt(toks, pos) != TREADLN {
        Report(Expected(TREAD));
        return ERROR, kinds;
      }
      Consume();
      if IdAt(toks, pos) == TLPAREN {
        Consume();
        r, kinds := ParseInputVariables();
        if r == ERROR { return ERROR, kinds; }
        if IdAt(toks, pos) != TRPAREN {
          Report(Expected(TRPAREN));
          return ERROR, kinds;
        }
        Consume();
      }
      return NORMAL, kinds;
    }

    /** parseOutputFormat: a string whose length is not 1, or an expression
        optionally followed by `: NUMBER`, as FormatKind says. The
        expression's kind is not checked: the check written for it is
        reached only when the kind is not TPRERROR and tests for TPRERROR. */
    method ParseOutputFormat() returns (r: int)
      requires Valid() && !halted
      modifies this`pos, this`halted, this`scopes, this`curType, this`diags
      decreases |toks| - pos, 7
      ensures Valid() && old(pos) <= pos && (halted ==> r == ERROR)
      ensures Yields(FormatKind(toks, old(pos), old(scopes), old(curType).Some?), r)
      ensures curType.Some? == old(curType).Some?
      ensures !(IdAt(toks, old(pos)) == TSTRING && toks[old(pos)].len != 1) ==>
        var e := ExprKind(toks, old(pos), old(scopes), old(curType).Some?);
        !e.halt && e.kind != TPRERROR && IdAt(toks, e.end) == TCOLON && IdAt(toks, e.end + 1) != TNUMBER ==>
          |diags| > 0 && diags[|diags| - 1] == Expected(TNUMBER)
      ensures r == NORMAL ==>
        (IdAt(toks, old(pos)) == TSTRING && toks[old(pos)].len != 1 && pos == old(pos) + 1) ||
        (IdAt(toks, pos) != TCOLON && !IsRelOp(IdAt(toks, pos))) ||
        (pos >= old(pos) + 2 && IdAt(toks, pos - 2) == TCOLON && IdAt(toks, pos - 1) == TNUMBER)
      ensures r == NORMAL || r == ERROR
    {
      if IdAt(toks, pos) == TSTRING && toks[pos].len != 1 {
        Consume();
      } else {
        var e := ParseExpression();
        if halted { return ERROR; }
        if e == TPRERROR { return ERROR; }
        if IdAt(toks, pos) != TCOLON { return NORMAL; }
        Consume();
        if IdAt(toks, pos) != TNUMBER {
          Report(Expected(TNUMBER));
          return ERROR;
        }
        Consume();
      }
      return NORMAL;
    }

    /** The format list of parseOutputStatement after its `(`: a format,
        then one more after each comma, returning at the first that fails;
        the list is FormatsFrom's. */
    method ParseOutputFormats() returns (r: int)
      requires Valid() && !halted
      modifies this`pos, this`halted, this`scopes, this`curType, this`diags
      decreases |toks| - pos, 7
      ensures Valid() && old(pos) <= pos && (halted ==> r == ERROR)
      ensures Yields(FormatsFrom(toks, old(pos), old(scopes), old(curType).Some?), r)
      ensures curType.Some? == old(curType).Some?
    {
      ghost var ht := curType.Some?;
      ghost var whole := FormatsFrom(toks, pos, scopes, ht);
      r := ParseOutputFormat();
      if r == ERROR { return ERROR; }
      while IdAt(toks, pos) == TCOMMA
        invariant Valid() && !halted && old(pos) <= pos && curType.Some? == ht && r == NORMAL
        invariant whole == FormatsAfter(toks, pos, scopes, ht)
        decreases |toks| - pos
      {
        Consume();
        r := ParseOutputFormat();
        if r == ERROR { return ERROR; }
      }
    }

    /** parseOutputStatement: `write` or `writeln`, optionally followed by
        `( output-format {, output-format} )`. */
    method ParseOutputStatement() returns (r: int)
      requires Valid() && !halted
      modifies this`pos, this`halted, this`scopes, this`curType, this`diags
      decreases |toks| - pos, 8
      ensures Valid() && old(pos) <= pos && (halted ==> r == ERROR)
      ensures IdAt(toks, old(pos)) != TWRITE && IdAt(toks, old(pos)) != TWRITELN ==>
        r == ERROR && pos == old(pos) && diags == old(diags) + [Expected(TWRITE)]
      ensures (IdAt(toks, old(pos)) == TWRITE || IdAt(toks, old(pos)) == TWRITELN) && IdAt(toks, old(pos) + 1) != TLPAREN ==>
        r == NORMAL && pos == old(pos) + 1 && scopes == old(scopes) && diags == old(diags)
      ensures (IdAt(toks, old(pos)) == TWRITE || IdAt(toks, old(pos)) == TWRITELN) && IdAt(toks, old(pos) + 1) == TLPAREN ==>
        var f := FormatsFrom(toks, old(pos) + 2, old(scopes), old(curType).Some?);
        halted == f.halt && (r == NORMAL <==> f.kind == NORMAL && IdAt(toks, f.end) == TRPAREN) &&
        (r == NORMAL ==> pos == f.end + 1 && scopes == f.scopes)
      ensures curType.Some? == old(curType).Some?
      ensures r == NORMAL || r == ERROR
    {
      if IdAt(toks, pos) != TWRITE && IdAt(toks, pos) != TWRITELN {
        Report(Expected(TWRITE));
        return ERROR;
      }
      Consume();
      if IdAt(toks, pos) != TLPAREN { return NORMAL; }
      Consume();
      r := ParseOutputFormats();
      if r == ERROR { return ERROR; }
      if IdAt(toks, pos) != TRPAREN {
        Report(Expected(TRPAREN));
        return ERROR;
      }
      Consume();
      return NORMAL;
    }

    /** parseStatement: dispatches on the first token. A token no statement
        starts with is the empty statement; `break` while no loop has been
        entered is reported. */
    method ParseStatement() returns (r: int)
      requires Valid() && !halted
      modifies this`pos, this`halted, this`scopes, this`curType, this`iterationLevel, this`diags
      decreases |toks| - pos, 11
      ensures Valid() && old(pos) <= pos && (halted ==> r == ERROR)
      ensures iterationLevel >= old(iterationLevel)
      ensures !StartsStatement(IdAt(toks, old(pos))) ==>
        r == NORMAL && pos == old(pos) && scopes == old(scopes) && iterationLevel == old(iterationLevel) &&
        diags == old(diags)
      ensures IdAt(toks, old(pos)) == TBREAK ==>
        (r == ERROR <==> old(iterationLevel) == 0) &&
        (r == ERROR ==> pos == old(pos) && diags == old(diags) + [BreakOutsideLoop]) &&
        (r == NORMAL ==> pos == old(pos) + 1 && diags == old(diags))
      ensures r == NORMAL || r == ERROR
    {
      r := NORMAL;
      var id := IdAt(toks, pos);
      if id == TNAME {
        r := ParseAssignment();
      } else if id == TIF {
        r := ParseCondition();
      } else if id == TWHILE {
        r := ParseIteration();
      } else if id == TBREAK {
        if iterationLevel == 0 {
          Report(BreakOutsideLoop);
          return ERROR;
        }
        Consume();
      } else if id == TCALL {
        ghost var params, args, closed;
        r, params, args, closed := ParseCall();
      } else if id == TRETURN {
        Consume();
      } else if id == TREAD || id == TREADLN {
        ghost var kinds;
        r, kinds := ParseInput();
      } else if id == TWRITE || id == TWRITELN {
        r := ParseOutputStatement();
      } else if id == TBEGIN {
        r := ParseCompoundStatement();
      }
      if r == ERROR { return ERROR; }
      return NORMAL;
    }

    /** parseCompoundStatement: `begin statement {; statement} end`. */
    method ParseCompoundStatement() returns (r: int)
      requires Valid() && !halted
      modifies this`pos, this`halted, this`scopes, this`curType, this`iterationLevel, this`diags
      decreases |toks| - pos, 10
      ensures Valid() && old(pos) <= pos && (halted ==> r == ERROR)
      ensures iterationLevel >= old(iterationLevel)
      ensures IdAt(toks, old(pos)) != TBEGIN ==> r == ERROR && pos == old(pos) && diags == old(diags) + [Expected(TBEGIN)]
      ensures r == NORMAL ==> IdAt(toks, old(pos)) == TBEGIN && pos >= old(pos) + 2 && IdAt(toks, pos - 1) == TEND
      ensures r == NORMAL || r == ERROR
    {
      if IdAt(toks, pos) != TBEGIN {
        Report(Expected(TBEGIN));
        return ERROR;
      }
      Consume();
      r := ParseStatement();
      if r == ERROR { return ERROR; }
      while IdAt(toks, pos) == TSEMI
        invariant Valid() && !halted && pos > old(pos) && iterationLevel >= old(iterationLevel)
        decreases |toks| - pos
      {
        Consume();
        r := ParseStatement();
        if r == ERROR { return ERROR; }
      }
      if IdAt(toks, pos) != TEND {
        Report(Expected(TEND));
        return ERROR;
      }
      Consume();
      return NORMAL;
    }

    // Procedures and the program.

    /** registerProcedureParameters: the global entry of the procedure being
        parsed gets the parameter type list; a procedure missing from the
        global table is reported. */
    method RegisterProcedureParameters(params: Option<Type>) returns (r: int)
      requires Valid() && !halted
      modifies this`scopes, this`halted, this`diags
      ensures Valid() && (halted ==> r == ERROR)
      ensures scopes.local == old(scopes).local && scopes.inLocal == old(scopes).inLocal
      ensures r == NORMAL <==>
        procName.Some? && TableGet(old(scopes).global, procName.value).Some? &&
        TableGet(old(scopes).global, procName.value).value.itp.Some?
      ensures r == NORMAL ==>
        scopes == old(scopes).(global := TablePut(old(scopes).global, procName.value,
                                                  WithParams(TableGet(old(scopes).global, procName.value).value, params)))
      ensures r == ERROR && !halted ==> scopes == old(scopes) && diags == old(diags) + [UndefinedProcedure]
      ensures r == NORMAL || r == ERROR
    {
      if procName.None? {
        halted := true;
        return ERROR;
      }
      var procnode := TableGet(scopes.global, procName.value);
      if procnode.None? {
        Report(UndefinedProcedure);
        return ERROR;
      }
      if procnode.value.itp.None? {
        halted := true;
        return ERROR;
      }
      scopes := scopes.(global := TablePut(scopes.global, procName.value, WithParams(procnode.value, params)));
      return NORMAL;
    }

    /** The inner loop of parseFormalParamters: every stacked name gets one
        node of the group's kind in the parameter list, and the names not yet
        in the local table are entered there as parameters. */
    method DeclareParameterGroup(kind: int) returns (kinds: seq<int>)
      requires Valid()
      modifies this`varNames, this`scopes
      ensures Valid() && varNames == [] && kinds == Repeat(kind, |old(varNames)|)
      ensures scopes == old(scopes).(local := DeclareParams(old(scopes).local, old(varNames), procName, kind))
    {
      kinds := [];
      while varNames != []
        invariant Valid() && |kinds| + |varNames| == |old(varNames)|
        invariant forall i :: 0 <= i < |kinds| ==> kinds[i] == kind
        invariant scopes.global == old(scopes).global && scopes.inLocal == old(scopes).inLocal
        invariant DeclareParams(scopes.local, varNames, procName, kind) ==
          DeclareParams(old(scopes).local, old(varNames), procName, kind)
        decreases |varNames|
      {
        var v := varNames[|varNames| - 1];
        varNames := varNames[..|varNames| - 1];
        kinds := kinds + [kind];
        if TableGet(scopes.local, v.name).None? {
          scopes := scopes.(local := TablePut(scopes.local, v.name, Id(v.name, procName, Some(Type(kind, -1, None, None)), true, v.lineNo, [])));
        }
      }
      assert kinds == Repeat(kind, |old(varNames)|);
    }

    /** The `: standard-type` that closes a group of formal parameters;
        `kind` is the kind of the type. */
    method ParseGroupType() returns (r: int, kind: int)
      requires Valid() && !halted
      modifies this`pos, this`halted, this`diags
      ensures Valid() && !halted && old(pos) <= pos
      ensures r == NORMAL <==> IdAt(toks, old(pos)) == TCOLON && IsStdType(IdAt(toks, old(pos) + 1))
      ensures r == NORMAL ==> pos == old(pos) + 2 && kind == DecodeIdToKind(IdAt(toks, old(pos) + 1), false)
      ensures r == ERROR ==>
        diags == old(diags) + [if IdAt(toks, old(pos)) != TCOLON then Expected(TCOLON) else ExpectedType]
      ensures r == NORMAL || r == ERROR
    {
      kind := ERROR;
      if IdAt(toks, pos) != TCOLON {
        Report(Expected(TCOLON));
        return ERROR, kind;
      }
      Consume();
      if !IsStdType(IdAt(toks, pos)) {
        Report(ExpectedType);
        return ERROR, kind;
      }
      kind := DecodeIdToKind(IdAt(toks, pos), false);
      Consume();
      return NORMAL, kind;
    }

    /** One `names : standard-type` group of the formal parameters. With an
        empty stack at the start, the kinds it adds to the list are the
        group's type once per name. */
    method ParseParameterGroup() returns (r: int, kinds: seq<int>)
      requires Valid() && !halted
      modifies this`pos, this`halted, this`varNames, this`scopes, this`diags
      ensures Valid() && !halted && old(pos) <= pos
      ensures scopes.global == old(scopes).global && scopes.inLocal == old(scopes).inLocal
      ensures r == NORMAL ==>
        pos >= old(pos) + 3 && IsStdType(IdAt(toks, pos - 1)) && varNames == [] &&
        (old(varNames) == [] ==> kinds == FormalKinds(toks, old(pos), pos))
      ensures r == NORMAL || r == ERROR
    {
      kinds := [];
      r := ParseVarNames();
      if r == ERROR {
        Report(Expected(TNAME));
        return ERROR, [];
      }
      ghost var c := pos;
      var kind;
      r, kind := ParseGroupType();
      if r == ERROR { return ERROR, []; }
      FormalKindsOfGroup(toks, old(pos), c, old(varNames), varNames);
      kinds := DeclareParameterGroup(kind);
      return NORMAL, kinds;
    }

    /** The groups of parseFormalParamters, `group {; group}`. When no
        names were left on the stack, the kinds collected are one per formal
        name in source order, each of its group's type. */
    method ParseParameterGroups() returns (r: int, kinds: seq<int>)
      requires Valid() && !halted
      modifies this`pos, this`halted, this`varNames, this`scopes, this`diags
      ensures Valid() && !halted && old(pos) <= pos
      ensures scopes.global == old(scopes).global && scopes.inLocal == old(scopes).inLocal
      ensures r == NORMAL ==>
        pos >= old(pos) + 3 && IdAt(toks, pos) != TSEMI &&
        (old(varNames) == [] ==> kinds == FormalKinds(toks, old(pos), pos))
      ensures r == NORMAL || r == ERROR
    {
      ghost var start := pos;
      ghost var clean := varNames == [];
      var more;
      r, kinds := ParseParameterGroup();
      if r == ERROR { return ERROR, kinds; }
      while IdAt(toks, pos) == TSEMI
        invariant Valid() && !halted && pos >= start + 3 && IsStdType(IdAt(toks, pos - 1)) && varNames == []
        invariant scopes.global == old(scopes).global && scopes.inLocal == old(scopes).inLocal
        invariant clean ==> kinds == FormalKinds(toks, start, pos)
        decreases |toks| - pos
      {
        ghost var last := pos;
        Consume();
        r, more := ParseParameterGroup();
        if r == ERROR { return ERROR, kinds; }
        if clean {
          FormalKindsJoin(toks, start, last, pos, kinds, more);
        }
        kinds := kinds + more;
      }
      return NORMAL, kinds;
    }

    /** parseFormalParamters: `( group {; group} )`, then the parameter type
        list is stored on the procedure's global entry. When no names were
        left on the stack, the list holds one node per formal name in source
        order, each of its group's type. */
    method ParseFormalParameters() returns (r: int)
      requires Valid() && !halted
      modifies this`pos, this`halted, this`varNames, this`scopes, this`diags
      ensures Valid() && old(pos) <= pos && (halted ==> r == ERROR)
      ensures scopes.inLocal == old(scopes).inLocal
      ensures IdAt(toks, old(pos)) != TLPAREN ==> r == ERROR && pos == old(pos) && diags == old(diags) + [Expected(TLPAREN)]
      ensures r == NORMAL ==>
        IdAt(toks, old(pos)) == TLPAREN && pos >= old(pos) + 5 && IdAt(toks, pos - 1) == TRPAREN &&
        procName.Some? && TableGet(old(scopes).global, procName.value).Some? &&
        TableGet(old(scopes).global, procName.value).value.itp.Some?
      ensures r == NORMAL && old(varNames) == [] ==>
        scopes.global == TablePut(old(scopes).global, procName.value,
          WithParams(TableGet(old(scopes).global, procName.value).value, ParamChain(FormalKinds(toks, old(pos) + 1, pos - 1))))
      ensures r == NORMAL || r == ERROR
    {
      if IdAt(toks, pos) != TLPAREN {
        Report(Expected(TLPAREN));
        return ERROR;
      }
      Consume();
      var kinds;
      r, kinds := ParseParameterGroups();
      if r == ERROR { return ERROR; }
      if IdAt(toks, pos) != TRPAREN {
        Report(Expected(TRPAREN));
        return ERROR;
      }
      Consume();
      r := RegisterProcedureParameters(ParamChain(kinds));
    }

    /** The procedure name of parseSubProgram, at the cursor: a name the
        global table already holds is reported as a procedure defined before;
        otherwise the last type parsed becomes the procedure type, the
        procedure is entered into the global table under its name and
        becomes the current procedure. */
    method DeclareProcedure() returns (r: int)
      requires Valid() && !halted && IdAt(toks, pos) == TNAME
      modifies this`pos, this`halted, this`scopes, this`curType, this`procName, this`diags
      ensures Valid() && !halted
      ensures var name := toks[old(pos)].str;
        (TableGet(old(scopes).global, name).Some? ==>
           r == ERROR && pos == old(pos) && scopes == old(scopes) && diags == old(diags) + [ProcedureAlreadyDefined(name)]) &&
        (TableGet(old(scopes).global, name).None? ==>
           r == NORMAL && pos == old(pos) + 1 && procName == Some(name) && diags == old(diags) &&
           curType == Some(Type(TPPROC, -1, None, None)) &&
           scopes == old(scopes).(global := TablePut(old(scopes).global, name,
                                                     Id(name, None, curType, false, toks[old(pos)].lineNo, []))))
    {
      var name := toks[pos].str;
      if TableGet(scopes.global, name).Some? {
        Report(ProcedureAlreadyDefined(name));
        return ERROR;
      }
      curType := Some(Type(TPPROC, -1, None, None));
      scopes := scopes.(global := TablePut(scopes.global, name, Id(name, None, CopyType(curType), false, toks[pos].lineNo, [])));
      procName := Some(name);
      Consume();
      return NORMAL;
    }

    /** The head of parseSubProgram, `procedure NAME [formal-parameters] ;`.
        A local scope is entered first, then the procedure is declared; the
        result of the formal parameters is not checked. */
    method ParseProcedureHead() returns (r: int)
      requires Valid() && !halted
      modifies this`pos, this`halted, this`scopes, this`curType, this`varNames, this`procName, this`diags
      ensures Valid() && old(pos) <= pos && (halted ==> r == ERROR)
      ensures IdAt(toks, old(pos)) != TPROCEDURE ==>
        r == ERROR && pos == old(pos) && scopes == old(scopes) && diags == old(diags) + [Expected(TPROCEDURE)]
      ensures IdAt(toks, old(pos)) == TPROCEDURE && IdAt(toks, old(pos) + 1) == TNAME &&
              TableGet(old(scopes).global, toks[old(pos) + 1].str).Some? ==>
        r == ERROR && scopes.global == old(scopes).global &&
        diags == old(diags) + [ProcedureAlreadyDefined(toks[old(pos) + 1].str)]
      ensures r == NORMAL ==>
        IdAt(toks, old(pos)) == TPROCEDURE && IdAt(toks, old(pos) + 1) == TNAME && pos >= old(pos) + 3 &&
        IdAt(toks, pos - 1) == TSEMI && scopes.inLocal && procName == Some(toks[old(pos) + 1].str) &&
        TableGet(old(scopes).global, toks[old(pos) + 1].str).None?
      ensures r == NORMAL || r == ERROR
    {
      if IdAt(toks, pos) != TPROCEDURE {
        Report(Expected(TPROCEDURE));
        return ERROR;
      }
      EnterScope();
      Consume();
      if IdAt(toks, pos) != TNAME {
        Report(Expected(TNAME));
        return ERROR;
      }
      r := DeclareProcedure();
      if r == ERROR { return ERROR; }
      if IdAt(toks, pos) == TLPAREN {
        var ignored := ParseFormalParameters();
        if halted { return ERROR; }
      }
      if IdAt(toks, pos) != TSEMI {
        Report(Expected(TSEMI));
        return ERROR;
      }
      Consume();
      return NORMAL;
    }

    /** parseSubProgram: the head, then `[var-declaration] compound-statement ;`,
        and the local scope is left. */
    method ParseSubProgram() returns (r: int)
      requires Valid() && !halted
      modifies this`pos, this`halted, this`scopes, this`curType, this`iterationLevel, this`varNames,
               this`procName, this`diags
      decreases |toks| - pos, 12
      ensures Valid() && old(pos) <= pos && (halted ==> r == ERROR)
      ensures iterationLevel >= old(iterationLevel)
      ensures IdAt(toks, old(pos)) != TPROCEDURE ==> r == ERROR && pos == old(pos) && scopes == old(scopes)
      ensures r == NORMAL ==>
        IdAt(toks, old(pos)) == TPROCEDURE && IdAt(toks, old(pos) + 1) == TNAME && pos >= old(pos) + 6 &&
        IdAt(toks, pos - 1) == TSEMI && IdAt(toks, pos - 2) == TEND && procName == None && !scopes.inLocal
      ensures r == NORMAL || r == ERROR
    {
      r := ParseProcedureHead();
      if r == ERROR { return ERROR; }
      if IdAt(toks, pos) == TVAR {
        r := ParseVarDeclaration();
        if r == ERROR { return ERROR; }
      }
      r := ParseCompoundStatement();
      if r == ERROR { return ERROR; }
      if IdAt(toks, pos) != TSEMI {
        Report(Expected(TSEMI));
        return ERROR;
      }
      Consume();
      ExitScope();
      return NORMAL;
    }

    /** parseBlock: any number of variable declarations and procedures, then
        the compound statement. */
    method ParseBlock() returns (r: int)
      requires Valid() && !halted
      modifies this`pos, this`halted, this`scopes, this`curType, this`iterationLevel, this`varNames,
               this`procName, this`diags
      decreases |toks| - pos, 13
      ensures Valid() && old(pos) <= pos && (halted ==> r == ERROR)
      ensures iterationLevel >= old(iterationLevel)
      ensures r == NORMAL ==> pos >= old(pos) + 2 && IdAt(toks, pos - 1) == TEND
      ensures r == NORMAL || r == ERROR
    {
      while true
        invariant Valid() && !halted && old(pos) <= pos
        invariant iterationLevel >= old(iterationLevel)
        decreases |toks| - pos
      {
        if IdAt(toks, pos) == TVAR {
          r := ParseVarDeclaration();
          if r == ERROR { return ERROR; }
        } else if IdAt(toks, pos) == TPROCEDURE {
          r := ParseSubProgram();
          if r == ERROR { return ERROR; }
        } else {
          break;
        }
      }
      r := ParseCompoundStatement();
      if r == ERROR { return ERROR; }
      return NORMAL;
    }

    /** parseProgram: `program NAME ; block .`. */
    method ParseProgram() returns (r: int)
      requires Valid() && !halted
      modifies this`pos, this`halted, this`scopes, this`curType, this`iterationLevel, this`varNames,
               this`procName, this`diags
      decreases |toks| - pos, 14
      ensures Valid() && old(pos) <= pos && (halted ==> r == ERROR)
      ensures IdAt(toks, old(pos)) != TPROGRAM ==>
        r == ERROR && !halted && pos == old(pos) && diags == old(diags) + [Expected(TPROGRAM)]
      ensures r == NORMAL ==>
        IdAt(toks, old(pos)) == TPROGRAM && IdAt(toks, old(pos) + 1) == TNAME &&
        IdAt(toks, old(pos) + 2) == TSEMI && pos >= old(pos) + 6 &&
        IdAt(toks, pos - 2) == TEND && IdAt(toks, pos - 1) == TDOT
      ensures r == NORMAL || r == ERROR
    {
      if IdAt(toks, pos) != TPROGRAM {
        Report(Expected(TPROGRAM));
        return ERROR;
      }
      Consume();
      if IdAt(toks, pos) != TNAME {
        Report(Expected(TNAME));
        return ERROR;
      }
      Consume();
      if IdAt(toks, pos) != TSEMI {
        Report(Expected(TSEMI));
        return ERROR;
      }
      Consume();
      r := ParseBlock();
      if r == ERROR { return ERROR; }
      if IdAt(toks, pos) != TDOT {
        Report(Expected(TDOT));
        return ERROR;
      }
      Consume();
      return NORMAL;
    }
  }
}
