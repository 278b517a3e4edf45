// The cross-referencing recursive-descent parser of 03/parse.c.
//
// Beside the cursor, the parser keeps the global and the local symbol table
// (`globalid`, `localid`, and `current_id` pointing at one of them), the name
// of the procedure being parsed, the stack of declared names waiting for their
// type (`varname_stack`), the last type parsed (`type`) and the printed cross
// reference rows. The pretty printer is switched off (printToken returns at
// once), so `indent_level`, `at_bol` and `parameter_num` are written and never
// read, and the model leaves them out. `halted` records the points where the C
// program crashes: stepping past the EOF token, writing through a NULL `type`,
// and the redeclaration path of processVarNameStack.
module Parse03 {
  import opened Wrappers
  import opened Lpp
  import opened HashMap
  import opened Symbols
  import opened Grammar

  /** parse: sets up an empty global table, parses the program and prints
      the global cross reference table, whatever the result. */
  method Parse(toks: seq<Token>) returns (r: int, printed: seq<Entry<Id>>)
    requires |toks| > 0 && toks[|toks| - 1].id == 0
    ensures r == NORMAL || r == ERROR
    ensures r == NORMAL ==> IdAt(toks, 0) == TPROGRAM && IdAt(toks, 1) == TNAME && IdAt(toks, 2) == TSEMI
    ensures IdAt(toks, 0) != TPROGRAM ==> r == ERROR
  {
    var p := new Parser(toks);
    r := p.ParseProgram();
    if !p.halted {
      p.PrintCrossreferenceTable(p.scopes.global);
    }
    printed := p.printed;
  }

  class Parser {
    const toks: seq<Token>
    var pos: nat
    var halted: bool
    var iterationLevel: int
    var scopes: Scopes
    var procName: Option<string>
    var varNames: seq<Var>
    var curType: Option<Type>
    var printed: seq<Entry<Id>>

    /** The cursor stays inside the token list, stepping past the EOF token
        crashes, and both tables have HASHSIZE buckets. */
    ghost predicate Valid()
      reads this
    {
      |toks| > 0 && toks[|toks| - 1].id == 0 && pos <= |toks| && (pos == |toks| ==> halted) &&
      iterationLevel >= 0 && ScopesOk(scopes)
    }

    /** The state parse sets up: `cur` at the first token, the global table
        empty and current, no procedure, an empty name stack, no type yet. */
    constructor (toks: seq<Token>)
      requires |toks| > 0 && toks[|toks| - 1].id == 0
      ensures Valid() && this.toks == toks && pos == 0 && !halted && iterationLevel == 0
      ensures !scopes.inLocal && forall name :: TableGet(scopes.global, name) == None
      ensures procName == None && varNames == [] && curType == None && printed == []
    {
      this.toks := toks;
      pos := 0;
      halted := false;
      iterationLevel := 0;
      EmptyTableIsEmpty<Id>(HASHSIZE);
      scopes := Scopes(EmptyTable(HASHSIZE), EmptyTable(HASHSIZE), false);
      procName := None;
      varNames := [];
      curType := None;
      printed := [];
    }

    /** consumeToken: moves `cur` to the next token; moving past the EOF
        token leaves `cur` NULL, and the next access crashes. */
    method Consume()
      requires Valid() && !halted
      modifies this`pos, this`halted
      ensures Valid() && pos == old(pos) + 1 && (halted <==> pos == |toks|)
      ensures IdAt(toks, old(pos)) != 0 ==> !halted
    {
      pos := pos + 1;
      halted := pos == |toks|;
    }

    /** lookupAndAddIref, on the parser's tables. */
    method LookupAndAddIref(name: string, line: int) returns (entry: Option<Id>)
      requires Valid()
      modifies this`scopes
      ensures Valid() && (entry, scopes) == Symbols.LookupAndAddIref(old(scopes), name, line)
    {
      var s := scopes;
      var here := TableGet(Current(s), name);
      if here.None? && s.inLocal {
        here := TableGet(s.global, name);
        if here.Some? {
          entry := Some(Referenced(here.value, line));
          scopes := s.(global := TablePut(s.global, name, entry.value));
          return;
        }
      }
      if here.Some? {
        entry := Some(Referenced(here.value, line));
        scopes := WithCurrent(s, TablePut(Current(s), name, entry.value));
      } else {
        entry := None;
      }
    }

    /** enterScope: a fresh local table becomes current. */
    method EnterScope()
      requires Valid()
      modifies this`scopes
      ensures Valid() && scopes == Symbols.EnterScope(old(scopes))
    {
      scopes := Symbols.EnterScope(scopes);
    }

    /** printCrossreferenceTable: the rows are the table's entries, bucket by
        bucket. */
    method PrintCrossreferenceTable(t: Table<Id>)
      modifies this`printed
      ensures printed == old(printed) + Entries(t)
    {
      printed := printed + Entries(t);
    }

    /** exitScope: prints the local table, forgets the procedure name and
        makes the global table current again. */
    method ExitScope()
      requires Valid()
      modifies this`scopes, this`procName, this`printed
      ensures Valid() && procName == None && !scopes.inLocal
      ensures scopes.global == old(scopes.global) && printed == old(printed) + Entries(old(scopes.local))
    {
      PrintCrossreferenceTable(scopes.local);
      procName := None;
      scopes := scopes.(inLocal := false);
    }

    /** parseType: a standard type, or `array [ NUMBER ] of` a standard
        type; on success `type` is the record the type denotes. */
    method ParseType() returns (r: int)
      requires Valid() && !halted
      modifies this`pos, this`halted, this`curType
      ensures Valid() && !halted && old(pos) <= pos
      ensures r == NORMAL <==> IsStdType(IdAt(toks, old(pos))) || ArrayTypeAt(toks, old(pos))
      ensures r == NORMAL ==>
        pos == old(pos) + (if IsStdType(IdAt(toks, old(pos))) then 1 else 6) &&
        curType == Some(TypeDenoted(toks, old(pos)))
      ensures r == ERROR ==> curType == old(curType)
      ensures r == NORMAL || r == ERROR
    {
      var p := pos;
      if IsStdType(IdAt(toks, pos)) {
        curType := Some(TypeDenoted(toks, pos));
        Consume();
      } else if IdAt(toks, pos) == TARRAY {
        Consume();
        if IdAt(toks, pos) != TLSQPAREN { return ERROR; }
        Consume();
        if IdAt(toks, pos) != TNUMBER { return ERROR; }
        Consume();
        if IdAt(toks, pos) != TRSQPAREN { return ERROR; }
        Consume();
        if IdAt(toks, pos) != TOF { return ERROR; }
        Consume();
        if !IsStdType(IdAt(toks, pos)) { return ERROR; }
        curType := Some(TypeDenoted(toks, p));
        Consume();
      } else {
        return ERROR;
      }
      return NORMAL;
    }

    /** parseVarNames: `NAME {, NAME}`, pushing each name with its line onto
        the name stack. */
    method ParseVarNames() returns (r: int)
      requires Valid() && !halted
      modifies this`pos, this`halted, this`varNames
      ensures Valid() && !halted && old(pos) <= pos
      ensures varNames == old(varNames) + NamesIn(toks, old(pos), pos)
      ensures r == NORMAL ==> IdAt(toks, old(pos)) == TNAME && NameListAt(toks, old(pos), pos) && IdAt(toks, pos) != TCOMMA
      ensures r == ERROR ==>
        (pos == old(pos) && IdAt(toks, pos) != TNAME) ||
        (NameListAt(toks, old(pos), pos - 1) && IdAt(toks, pos - 1) == TCOMMA && IdAt(toks, pos) != TNAME)
      ensures r == NORMAL || r == ERROR
    {
      ghost var p := pos;
      if IdAt(toks, pos) != TNAME { return ERROR; }
      NamesInPush(toks, p, pos, old(varNames), varNames);
      varNames := varNames + [Var(toks[pos].lineNo, toks[pos].str)];
      Consume();
      while IdAt(toks, pos) == TCOMMA
        invariant Valid() && !halted && IdAt(toks, p) == TNAME && NameListAt(toks, p, pos)
        invariant varNames == old(varNames) + NamesIn(toks, p, pos)
        decreases |toks| - pos
      {
        NamesInSkip(toks, p, pos);
        Consume();
        if IdAt(toks, pos) != TNAME { return ERROR; }
        NamesInPush(toks, p, pos, old(varNames), varNames);
        varNames := varNames + [Var(toks[pos].lineNo, toks[pos].str)];
        Consume();
      }
      return NORMAL;
    }

    /** processVarNameStack: declares the stacked names in the current table
        with the last type parsed, emptying the stack; a name declared before
        stops the program. */
    method ProcessVarNameStack()
      requires Valid() && !halted
      modifies this`scopes, this`varNames, this`halted
      ensures Valid()
      ensures var d := DeclareVars(Current(old(scopes)), old(varNames), procName, curType);
        (halted <==> d.None?) && (d.Some? ==> scopes == WithCurrent(old(scopes), d.value) && varNames == [])
    {
      ghost var d := DeclareVars(Current(scopes), varNames, procName, curType);
      while varNames != []
        invariant Valid() && !halted && scopes.inLocal == old(scopes.inLocal)
        invariant scopes.inLocal ==> scopes.global == old(scopes.global)
        invariant !scopes.inLocal ==> scopes.local == old(scopes.local)
        invariant DeclareVars(Current(scopes), varNames, procName, curType) == d
        decreases |varNames|
      {
        var v := varNames[|varNames| - 1];
        varNames := varNames[..|varNames| - 1];
        var t := Current(scopes);
        if TableGet(t, v.name).Some? {
          halted := true;
          return;
        }
        scopes := WithCurrent(scopes, TablePut(t, v.name, VarEntry(v, procName, curType)));
      }
    }

    /** The `;` that ends a group of a variable declaration: the stacked
        names are declared with the type just parsed, then it is consumed. */
    method EndVarGroup() returns (r: int)
      requires Valid() && !halted
      modifies this`pos, this`halted, this`varNames, this`scopes
      ensures Valid() && old(pos) <= pos && (halted ==> r == ERROR)
      ensures r == NORMAL ==> IdAt(toks, old(pos)) == TSEMI && pos == old(pos) + 1 && varNames == []
      ensures r == NORMAL || r == ERROR
    {
      if IdAt(toks, pos) != TSEMI { return ERROR; }
      ProcessVarNameStack();
      if halted { return ERROR; }
      Consume();
      return NORMAL;
    }

    /** One `names : type ;` group of a variable declaration. */
    method ParseVarGroup() returns (r: int)
      requires Valid() && !halted
      modifies this`pos, this`halted, this`varNames, this`scopes, this`curType
      ensures Valid() && old(pos) <= pos && (halted ==> r == ERROR)
      ensures r == NORMAL ==> IdAt(toks, old(pos)) == TNAME && pos >= old(pos) + 4 && IdAt(toks, pos - 1) == TSEMI
      ensures r == NORMAL ==> varNames == []
      ensures r == NORMAL || r == ERROR
    {
      r := ParseVarNames();
      if r == ERROR { return ERROR; }
      if IdAt(toks, pos) != TCOLON { return ERROR; }
      Consume();
      r := ParseType();
      if r == ERROR { return ERROR; }
      r := EndVarGroup();
    }

    /** parseVarDeclaration: `var` followed by one or more groups. */
    method ParseVarDeclaration() returns (r: int)
      requires Valid() && !halted
      modifies this`pos, this`halted, this`varNames, this`scopes, this`curType
      ensures Valid() && old(pos) <= pos && (halted ==> r == ERROR)
      ensures IdAt(toks, old(pos)) != TVAR ==> r == ERROR && pos == old(pos)
      ensures r == NORMAL ==>
        IdAt(toks, old(pos)) == TVAR && pos >= old(pos) + 5 && IdAt(toks, pos - 1) == TSEMI &&
        IdAt(toks, pos) != TNAME && varNames == []
      ensures r == NORMAL || r == ERROR
    {
      if IdAt(toks, pos) != TVAR { return ERROR; }
      Consume();
      r := ParseVarGroup();
      if r == ERROR { return ERROR; }
      while IdAt(toks, pos) == TNAME
        invariant Valid() && !halted && pos >= old(pos) + 5 && IdAt(toks, pos - 1) == TSEMI && varNames == []
        decreases |toks| - pos
      {
        r := ParseVarGroup();
        if r == ERROR { return ERROR; }
      }
      return NORMAL;
    }

    // Expressions. 03/parse.c checks no operand types; the constants and the
    // casts only overwrite the kind of the last type parsed.

    /** parseTerm: `factor {mul-op factor}`. */
    method ParseTerm() returns (r: int)
      requires Valid() && !halted
      modifies this`pos, this`halted, this`scopes, this`curType
      decreases |toks| - pos, 3
      ensures Valid() && old(pos) <= pos && (halted ==> r == ERROR)
      ensures r == NORMAL ==> pos > old(pos) && !IsMulOp(IdAt(toks, pos))
      ensures !StartsFactor(IdAt(toks, old(pos))) ==> r == ERROR && pos == old(pos)
      ensures r == NORMAL || r == ERROR
    {
      r := ParseFactor();
      if r == ERROR { return ERROR; }
      while IsMulOp(IdAt(toks, pos))
        invariant Valid() && !halted && pos > old(pos)
        decreases |toks| - pos
      {
        Consume();
        r := ParseFactor();
        if r == ERROR { return ERROR; }
      }
      return NORMAL;
    }

    /** parseSimpleExpression: `[+|-] term {add-op term}`. */
    method ParseSimpleExpression() returns (r: int)
      requires Valid() && !halted
      modifies this`pos, this`halted, this`scopes, this`curType
      decreases |toks| - pos, 4
      ensures Valid() && old(pos) <= pos && (halted ==> r == ERROR)
      ensures r == NORMAL ==> pos > old(pos) && !IsAddOp(IdAt(toks, pos))
      ensures r == NORMAL || r == ERROR
    {
      if IdAt(toks, pos) == TPLUS || IdAt(toks, pos) == TMINUS {
        Consume();
      }
      r := ParseTerm();
      if r == ERROR { return ERROR; }
      while IsAddOp(IdAt(toks, pos))
        invariant Valid() && !halted && pos > old(pos)
        decreases |toks| - pos
      {
        Consume();
        r := ParseTerm();
        if r == ERROR { return ERROR; }
      }
      return NORMAL;
    }

    /** parseExpression: `simple {rel-op simple}`. */
    method ParseExpression() returns (r: int)
      requires Valid() && !halted
      modifies this`pos, this`halted, this`scopes, this`curType
      decreases |toks| - pos, 5
      ensures Valid() && old(pos) <= pos && (halted ==> r == ERROR)
      ensures r == NORMAL ==> pos > old(pos) && !IsRelOp(IdAt(toks, pos))
      ensures r == NORMAL || r == ERROR
    {
      r := ParseSimpleExpression();
      if r == ERROR { return ERROR; }
      while IsRelOp(IdAt(toks, pos))
        invariant Valid() && !halted && pos > old(pos)
        decreases |toks| - pos
      {
        Consume();
        r := ParseSimpleExpression();
        if r == ERROR { return ERROR; }
      }
      return NORMAL;
    }

    /** A constant factor: its kind overwrites the kind of the last type
        parsed, which crashes when no type has been parsed yet. */
    method ParseConstant() returns (r: int)
      requires Valid() && !halted
      requires IdAt(toks, pos) == TNUMBER || IdAt(toks, pos) == TTRUE || IdAt(toks, pos) == TFALSE ||
               IdAt(toks, pos) == TSTRING
      modifies this`pos, this`halted, this`curType
      ensures Valid() && (halted ==> r == ERROR)
      ensures r == NORMAL <==> old(curType).Some?
      ensures r == NORMAL ==>
        pos == old(pos) + 1 && curType == Some(old(curType).value.(ttype := DecodeIdToKind(IdAt(toks, old(pos)), false)))
      ensures r == ERROR ==> halted && pos == old(pos)
      ensures r == NORMAL || r == ERROR
    {
      if curType.None? {
        halted := true;
        return ERROR;
      }
      curType := Some(curType.value.(ttype := DecodeIdToKind(IdAt(toks, pos), false)));
      Consume();
      return NORMAL;
    }

    /** parseFactor: a variable, a constant, `( expression )`, `not factor`
        or a cast `standard-type ( expression )`. The cast writes the
        keyword's token id (not a type kind) into the last type parsed, and
        its parentheses are reported when missing but consumed whatever they
        are. */
    method ParseFactor() returns (r: int)
      requires Valid() && !halted
      modifies this`pos, this`halted, this`scopes, this`curType
      decreases |toks| - pos, 2
      ensures Valid() && old(pos) <= pos && (halted ==> r == ERROR)
      ensures r == NORMAL ==> pos > old(pos)
      ensures !StartsFactor(IdAt(toks, old(pos))) ==> r == ERROR && pos == old(pos)
      ensures (IdAt(toks, old(pos)) == TNUMBER || IdAt(toks, old(pos)) == TSTRING) ==>
        (r == NORMAL <==> old(curType).Some?)
      ensures r == NORMAL || r == ERROR
    {
      var id := IdAt(toks, pos);
      if id == TNAME {
        r := ParseVar();
        if r == ERROR { return ERROR; }
      } else if id == TNUMBER || id == TFALSE || id == TTRUE || id == TSTRING {
        r := ParseConstant();
        if r == ERROR { return ERROR; }
      } else if id == TLPAREN {
        Consume();
        r := ParseExpression();
        if r == ERROR { return ERROR; }
        if IdAt(toks, pos) != TRPAREN { return ERROR; }
        Consume();
      } else if id == TNOT {
        Consume();
        r := ParseFactor();
        if r == ERROR { return ERROR; }
      } else if IsStdType(id) {
        if curType.None? {
          halted := true;
          return ERROR;
        }
        curType := Some(curType.value.(ttype := id));
        Consume();
        Consume();
        if halted { return ERROR; }
        r := ParseExpression();
        if r == ERROR { return ERROR; }
        Consume();
        if halted { return ERROR; }
      } else {
        return ERROR;
      }
      return NORMAL;
    }

    /** parseVar: `NAME [ [ expression ] ]`. The name is looked up and the
        reference recorded when it is found; an unknown name is no error. */
    method ParseVar() returns (r: int)
      requires Valid() && !halted
      modifies this`pos, this`halted, this`scopes, this`curType
      decreases |toks| - pos, 1
      ensures Valid() && old(pos) <= pos && (halted ==> r == ERROR)
      ensures IdAt(toks, old(pos)) != TNAME ==> r == ERROR && pos == old(pos)
      ensures r == NORMAL ==> (
        IdAt(toks, old(pos)) == TNAME &&
        ((pos == old(pos) + 1 && IdAt(toks, pos) != TLSQPAREN) ||
         (pos >= old(pos) + 4 && IdAt(toks, old(pos) + 1) == TLSQPAREN && IdAt(toks, pos - 1) == TRSQPAREN)))
      ensures IdAt(toks, old(pos)) == TNAME && IdAt(toks, old(pos) + 1) != TLSQPAREN ==>
        r == NORMAL && scopes == Symbols.LookupAndAddIref(old(scopes), toks[old(pos)].str, toks[old(pos)].lineNo).1
      ensures r == NORMAL || r == ERROR
    {
      if IdAt(toks, pos) != TNAME { return ERROR; }
      var entry := LookupAndAddIref(toks[pos].str, toks[pos].lineNo);
      Consume();
      if IdAt(toks, pos) == TLSQPAREN {
        Consume();
        r := ParseExpression();
        if r == ERROR { return ERROR; }
        if IdAt(toks, pos) != TRSQPAREN { return ERROR; }
        Consume();
      }
      return NORMAL;
    }

    // Statements. None of them touches the name stack or the procedure name;
    // the iteration level only grows.

    /** parseAssignment: `variable := expression`. */
    method ParseAssignment() returns (r: int)
      requires Valid() && !halted
      modifies this`pos, this`halted, this`scopes, this`curType
      decreases |toks| - pos, 6
      ensures Valid() && old(pos) <= pos && (halted ==> r == ERROR)
      ensures r == NORMAL ==> IdAt(toks, old(pos)) == TNAME && pos >= old(pos) + 3
      ensures r == NORMAL || r == ERROR
    {
      r := ParseVar();
      if r == ERROR { return ERROR; }
      if IdAt(toks, pos) != TASSIGN { return ERROR; }
      Consume();
      r := ParseExpression();
      if r == ERROR { return ERROR; }
      return NORMAL;
    }

    /** parseCondition: `if expression then statement [else statement]`. */
    method ParseCondition() returns (r: int)
      requires Valid() && !halted
      modifies this`pos, this`halted, this`scopes, this`curType, this`iterationLevel
      decreases |toks| - pos, 8
      ensures Valid() && old(pos) <= pos && (halted ==> r == ERROR)
      ensures iterationLevel >= old(iterationLevel)
      ensures IdAt(toks, old(pos)) != TIF ==> r == ERROR && pos == old(pos)
      ensures r == NORMAL ==> IdAt(toks, old(pos)) == TIF
      ensures r == NORMAL || r == ERROR
    {
      if IdAt(toks, pos) != TIF { return ERROR; }
      Consume();
      r := ParseExpression();
      if r == ERROR { return ERROR; }
      if IdAt(toks, pos) != TTHEN { return ERROR; }
      Consume();
      r := ParseStatement();
      if r == ERROR { return ERROR; }
      if IdAt(toks, pos) == TELSE {
        Consume();
        r := ParseStatement();
        if r == ERROR { return ERROR; }
      }
      return NORMAL;
    }

    /** parseIteration: `while expression do statement`; the iteration level
        is raised for the body and never lowered again. */
    method ParseIteration() returns (r: int)
      requires Valid() && !halted
      modifies this`pos, this`halted, this`scopes, this`curType, this`iterationLevel
      decreases |toks| - pos, 8
      ensures Valid() && old(pos) <= pos && (halted ==> r == ERROR)
      ensures iterationLevel >= old(iterationLevel)
      ensures IdAt(toks, old(pos)) != TWHILE ==> r == ERROR && pos == old(pos)
      ensures r == NORMAL ==> IdAt(toks, old(pos)) == TWHILE && iterationLevel > old(iterationLevel)
      ensures r == NORMAL || r == ERROR
    {
      if IdAt(toks, pos) != TWHILE { return ERROR; }
      Consume();
      r := ParseExpression();
      if r == ERROR { return ERROR; }
      if IdAt(toks, pos) != TDO { return ERROR; }
      Consume();
      iterationLevel := iterationLevel + 1;
      r := ParseStatement();
      if r == ERROR { return ERROR; }
      return NORMAL;
    }

    /** An expression list `expression {, expression}` up to the closing `)`. */
    method ParseExpressionList() returns (r: int)
      requires Valid() && !halted
      modifies this`pos, this`halted, this`scopes, this`curType
      decreases |toks| - pos, 6
      ensures Valid() && old(pos) <= pos && (halted ==> r == ERROR)
      ensures r == NORMAL ==> pos >= old(pos) + 2 && IdAt(toks, pos - 1) == TRPAREN
      ensures r == NORMAL || r == ERROR
    {
      r := ParseExpression();
      if r == ERROR { return ERROR; }
      while IdAt(toks, pos) == TCOMMA
        invariant Valid() && !halted && pos > old(pos)
        decreases |toks| - pos
      {
        Consume();
        r := ParseExpression();
        if r == ERROR { return ERROR; }
      }
      if IdAt(toks, pos) != TRPAREN { return ERROR; }
      Consume();
      return NORMAL;
    }

    /** parseCall: `call NAME [ ( expression {, expression} ) ]`. The callee
        is looked up (recording the reference) before the checks; a call of
        the procedure being parsed and a callee that is not a procedure are
        errors. */
    method ParseCall() returns (r: int)
      requires Valid() && !halted
      modifies this`pos, this`halted, this`scopes, this`curType
      decreases |toks| - pos, 7
      ensures Valid() && old(pos) <= pos && (halted ==> r == ERROR)
      ensures IdAt(toks, old(pos)) != TCALL ==> r == ERROR && pos == old(pos)
      ensures r == NORMAL ==> (
        IdAt(toks, old(pos)) == TCALL && IdAt(toks, old(pos) + 1) == TNAME &&
        procName != Some(toks[old(pos) + 1].str) && IsProcedure(Visible(old(scopes), toks[old(pos) + 1].str)))
      ensures (IdAt(toks, old(pos)) == TCALL && IdAt(toks, old(pos) + 1) == TNAME &&
               procName == Some(toks[old(pos) + 1].str)) ==> r == ERROR
      ensures r == NORMAL || r == ERROR
    {
      if IdAt(toks, pos) != TCALL { return ERROR; }
      Consume();
      if IdAt(toks, pos) != TNAME { return ERROR; }
      var name := toks[pos].str;
      LookupAndAddIrefSpec(scopes, name, toks[pos].lineNo, name);
      var entry := LookupAndAddIref(name, toks[pos].lineNo);
      if procName == Some(name) { return ERROR; }
      if entry.None? { return ERROR; }
      if entry.value.itp.None? {
        halted := true;
        return ERROR;
      }
      if entry.value.itp.value.ttype != TPPROC { return ERROR; }
      Consume();
      if IdAt(toks, pos) == TLPAREN {
        Consume();
        r := ParseExpressionList();
        if r == ERROR { return ERROR; }
      }
      return NORMAL;
    }

    /** parseInput: `read` or `readln`, optionally followed by
        `( variable {, variable} )`. */
    method ParseInput() returns (r: int)
      requires Valid() && !halted
      modifies this`pos, this`halted, this`scopes, this`curType
      decreases |toks| - pos, 7
      ensures Valid() && old(pos) <= pos && (halted ==> r == ERROR)
      ensures IdAt(toks, old(pos)) != TREAD && IdAt(toks, old(pos)) != TREADLN ==> r == ERROR && pos == old(pos)
      ensures r == NORMAL || r == ERROR
    {
      if IdAt(toks, pos) != TREAD && IdAt(toks, pos) != TREADLN { return ERROR; }
      Consume();
      if IdAt(toks, pos) == TLPAREN {
        Consume();
        r := ParseVar();
        if r == ERROR { return ERROR; }
        while IdAt(toks, pos) == TCOMMA
          invariant Valid() && !halted && pos >= old(pos) + 3
          decreases |toks| - pos
        {
          Consume();
          r := ParseVar();
          if r == ERROR { return ERROR; }
        }
        if IdAt(toks, pos) != TRPAREN { return ERROR; }
        Consume();
      }
      return NORMAL;
    }

    /** parseOutputFormat: a string whose length is not 1, or an expression
        optionally followed by `: NUMBER`. */
    method ParseOutputFormat() returns (r: int)
      requires Valid() && !halted
      modifies this`pos, this`halted, this`scopes, this`curType
      decreases |toks| - pos, 6
      ensures Valid() && old(pos) <= pos && (halted ==> r == ERROR)
      ensures r == NORMAL ==>
        (IdAt(toks, old(pos)) == TSTRING && toks[old(pos)].len != 1 && pos == old(pos) + 1) ||
        (pos > old(pos) && IdAt(toks, pos) != TCOLON && !IsRelOp(IdAt(toks, pos))) ||
        (pos >= old(pos) + 3 && IdAt(toks, pos - 2) == TCOLON && IdAt(toks, pos - 1) == TNUMBER)
      ensures r == NORMAL || r == ERROR
    {
      if IdAt(toks, pos) == TSTRING && toks[pos].len != 1 {
        Consume();
      } else {
        r := ParseExpression();
        if r == ERROR { return ERROR; }
        if IdAt(toks, pos) != TCOLON { return NORMAL; }
        Consume();
        if IdAt(toks, pos) != TNUMBER { return ERROR; }
        Consume();
      }
      return NORMAL;
    }

    /** parseOutputStatement: `write` or `writeln`, optionally followed by
        `( output-format {, output-format} )`. */
    method ParseOutputStatement() returns (r: int)
      requires Valid() && !halted
      modifies this`pos, this`halted, this`scopes, this`curType
      decreases |toks| - pos, 7
      ensures Valid() && old(pos) <= pos && (halted ==> r == ERROR)
      ensures IdAt(toks, old(pos)) != TWRITE && IdAt(toks, old(pos)) != TWRITELN ==> r == ERROR && pos == old(pos)
      ensures r == NORMAL || r == ERROR
    {
      if IdAt(toks, pos) != TWRITE && IdAt(toks, pos) != TWRITELN { return ERROR; }
      Consume();
      if IdAt(toks, pos) != TLPAREN { return NORMAL; }
      Consume();
      r := ParseOutputFormat();
      if r == ERROR { return ERROR; }
      while IdAt(toks, pos) == TCOMMA
        invariant Valid() && !halted && pos >= old(pos) + 3
        decreases |toks| - pos
      {
        Consume();
        r := ParseOutputFormat();
        if r == ERROR { return ERROR; }
      }
      if IdAt(toks, pos) != TRPAREN { return ERROR; }
      Consume();
      return NORMAL;
    }

    /** parseStatement: dispatches on the first token. A token no statement
        starts with is the empty statement; `break` while no loop has been
        entered is an error. */
    method ParseStatement() returns (r: int)
      requires Valid() && !halted
      modifies this`pos, this`halted, this`scopes, this`curType, this`iterationLevel
      decreases |toks| - pos, 10
      ensures Valid() && old(pos) <= pos && (halted ==> r == ERROR)
      ensures iterationLevel >= old(iterationLevel)
      ensures !StartsStatement(IdAt(toks, old(pos))) ==>
        r == NORMAL && pos == old(pos) && scopes == old(scopes) && iterationLevel == old(iterationLevel)
      ensures IdAt(toks, old(pos)) == TBREAK ==>
        (r == ERROR <==> old(iterationLevel) == 0) && (r == ERROR ==> pos == old(pos)) &&
        (r == NORMAL ==> pos == old(pos) + 1)
      ensures r == NORMAL || r == ERROR
    {
      r := NORMAL;
      var id := IdAt(toks, pos);
      if id == TNAME {
        r := ParseAssignment();
      } else if id == TIF {
        r := ParseCondition();
      } else if id == TWHILE {
        r := ParseIteration();
      } else if id == TBREAK {
        if iterationLevel == 0 { return ERROR; }
        Consume();
      } else if id == TCALL {
        r := ParseCall();
      } else if id == TRETURN {
        Consume();
      } else if id == TREAD || id == TREADLN {
        r := ParseInput();
      } else if id == TWRITE || id == TWRITELN {
        r := ParseOutputStatement();
      } else if id == TBEGIN {
        r := ParseCompoundStatement();
      }
      if r == ERROR { return ERROR; }
      return NORMAL;
    }

    /** parseCompoundStatement: `begin statement {; statement} end`. */
    method ParseCompoundStatement() returns (r: int)
      requires Valid() && !halted
      modifies this`pos, this`halted, this`scopes, this`curType, this`iterationLevel
      decreases |toks| - pos, 9
      ensures Valid() && old(pos) <= pos && (halted ==> r == ERROR)
      ensures iterationLevel >= old(iterationLevel)
      ensures IdAt(toks, old(pos)) != TBEGIN ==> r == ERROR && pos == old(pos)
      ensures r == NORMAL ==> IdAt(toks, old(pos)) == TBEGIN && pos >= old(pos) + 2 && IdAt(toks, pos - 1) == TEND
      ensures r == NORMAL || r == ERROR
    {
      if IdAt(toks, pos) != TBEGIN { return ERROR; }
      Consume();
      r := ParseStatement();
      if r == ERROR { return ERROR; }
      while IdAt(toks, pos) == TSEMI
        invariant Valid() && !halted && pos > old(pos) && iterationLevel >= old(iterationLevel)
        decreases |toks| - pos
      {
        Consume();
        r := ParseStatement();
        if r == ERROR { return ERROR; }
      }
      if IdAt(toks, pos) != TEND { return ERROR; }
      Consume();
      return NORMAL;
    }

    // Procedures and the program.

    /** registerProcedureParameters: the global entry of the procedure being
        parsed gets the parameter type list; a procedure missing from the
        global table is an error. */
    method RegisterProcedureParameters(params: Option<Type>) returns (r: int)
      requires Valid() && !halted
      modifies this`scopes, this`halted
      ensures Valid() && (halted ==> r == ERROR)
      ensures scopes.local == old(scopes).local && scopes.inLocal == old(scopes).inLocal
      ensures r == NORMAL <==>
        procName.Some? && TableGet(old(scopes).global, procName.value).Some? &&
        TableGet(old(scopes).global, procName.value).value.itp.Some?
      ensures r == NORMAL ==>
        scopes == old(scopes).(global := TablePut(old(scopes).global, procName.value,
                                                  WithParams(TableGet(old(scopes).global, procName.value).value, params)))
      ensures r == ERROR && !halted ==> scopes == old(scopes)
      ensures r == NORMAL || r == ERROR
    {
      if procName.None? {
        halted := true;
        return ERROR;
      }
      var procnode := TableGet(scopes.global, procName.value);
      if procnode.None? { return ERROR; }
      if procnode.value.itp.None? {
        halted := true;
        return ERROR;
      }
      scopes := scopes.(global := TablePut(scopes.global, procName.value, WithParams(procnode.value, params)));
      return NORMAL;
    }

    /** The inner loop of parseFormalParamters: every stacked name gets one
        node of the group's kind in the parameter list, and the names not yet
        in the local table are entered there as parameters. */
    method DeclareParameterGroup(kind: int) returns (kinds: seq<int>)
      requires Valid()
      modifies this`varNames, this`scopes
      ensures Valid() && varNames == [] && kinds == Repeat(kind, |old(varNames)|)
      ensures scopes == old(scopes).(local := DeclareParams(old(scopes).local, old(varNames), procName, kind))
    {
      kinds := [];
      while varNames != []
        invariant Valid() && |kinds| + |varNames| == |old(varNames)|
        invariant forall i :: 0 <= i < |kinds| ==> kinds[i] == kind
        invariant scopes.global == old(scopes).global && scopes.inLocal == old(scopes).inLocal
        invariant DeclareParams(scopes.local, varNames, procName, kind) ==
          DeclareParams(old(scopes).local, old(varNames), procName, kind)
        decreases |varNames|
      {
        var v := varNames[|varNames| - 1];
        varNames := varNames[..|varNames| - 1];
        kinds := kinds + [kind];
        if TableGet(scopes.local, v.name).None? {
          scopes := scopes.(local := TablePut(scopes.local, v.name, Id(v.name, procName, Some(Type(kind, -1, None, None)), true, v.lineNo, [])));
        }
      }
      assert kinds == Repeat(kind, |old(varNames)|);
    }

    /** One `names : standard-type` group of the formal parameters. With an
        empty stack at the start, the kinds it adds to the list are the
        group's type once per name. */
    method ParseParameterGroup() returns (r: int, kinds: seq<int>)
      requires Valid() && !halted
      modifies this`pos, this`halted, this`varNames, this`scopes
      ensures Valid() && !halted && old(pos) <= pos
      ensures scopes.global == old(scopes).global && scopes.inLocal == old(scopes).inLocal
      ensures r == NORMAL ==>
        pos >= old(pos) + 3 && IsStdType(IdAt(toks, pos - 1)) && varNames == [] &&
        (old(varNames) == [] ==> kinds == FormalKinds(toks, old(pos), pos))
      ensures r == NORMAL || r == ERROR
    {
      kinds := [];
      r := ParseVarNames();
      if r == ERROR { return ERROR, []; }
      ghost var c := pos;
      if IdAt(toks, pos) != TCOLON { return ERROR, []; }
      Consume();
      if !IsStdType(IdAt(toks, pos)) { return ERROR, []; }
      var kind := DecodeIdToKind(IdAt(toks, pos), false);
      Consume();
      FormalKindsOfGroup(toks, old(pos), c, old(varNames), varNames);
      kinds := DeclareParameterGroup(kind);
      return NORMAL, kinds;
    }

    /** The groups of parseFormalParamters, `group {; group}`. When no
        names were left on the stack, the kinds collected are one per formal
        name in source order, each of its group's type. */
    method ParseParameterGroups() returns (r: int, kinds: seq<int>)
      requires Valid() && !halted
      modifies this`pos, this`halted, this`varNames, this`scopes
      ensures Valid() && !halted && old(pos) <= pos
      ensures scopes.global == old(scopes).global && scopes.inLocal == old(scopes).inLocal
      ensures r == NORMAL ==>
        pos >= old(pos) + 3 && IdAt(toks, pos) != TSEMI &&
        (old(varNames) == [] ==> kinds == FormalKinds(toks, old(pos), pos))
      ensures r == NORMAL || r == ERROR
    {
      ghost var start := pos;
      ghost var clean := varNames == [];
      var more;
      r, kinds := ParseParameterGroup();
      if r == ERROR { return ERROR, kinds; }
      while IdAt(toks, pos) == TSEMI
        invariant Valid() && !halted && pos >= start + 3 && IsStdType(IdAt(toks, pos - 1)) && varNames == []
        invariant scopes.global == old(scopes).global && scopes.inLocal == old(scopes).inLocal
        invariant clean ==> kinds == FormalKinds(toks, start, pos)
        decreases |toks| - pos
      {
        ghost var last := pos;
        Consume();
        r, more := ParseParameterGroup();
        if r == ERROR { return ERROR, kinds; }
        if clean {
          FormalKindsJoin(toks, start, last, pos, kinds, more);
        }
        kinds := kinds + more;
      }
      return NORMAL, kinds;
    }

    /** parseFormalParamters: `( group {; group} )`, then the parameter type
        list is stored on the procedure's global entry. When no names were
        left on the stack, the list holds one node per formal name in source
        order, each of its group's type. */
    method ParseFormalParameters() returns (r: int)
      requires Valid() && !halted
      modifies this`pos, this`halted, this`varNames, this`scopes
      ensures Valid() && old(pos) <= pos && (halted ==> r == ERROR)
      ensures scopes.inLocal == old(scopes).inLocal
      ensures IdAt(toks, old(pos)) != TLPAREN ==> r == ERROR && pos == old(pos)
      ensures r == NORMAL ==>
        IdAt(toks, old(pos)) == TLPAREN && pos >= old(pos) + 5 && IdAt(toks, pos - 1) == TRPAREN &&
        procName.Some? && TableGet(old(scopes).global, procName.value).Some? &&
        TableGet(old(scopes).global, procName.value).value.itp.Some?
      ensures r == NORMAL && old(varNames) == [] ==>
        scopes.global == TablePut(old(scopes).global, procName.value,
          WithParams(TableGet(old(scopes).global, procName.value).value, ParamChain(FormalKinds(toks, old(pos) + 1, pos - 1))))
      ensures r == NORMAL || r == ERROR
    {
      if IdAt(toks, pos) != TLPAREN { return ERROR; }
      Consume();
      var kinds;
      r, kinds := ParseParameterGroups();
      if r == ERROR { return ERROR; }
      if IdAt(toks, pos) != TRPAREN { return ERROR; }
      Consume();
      r := RegisterProcedureParameters(ParamChain(kinds));
    }

    /** The head of parseSubProgram, `procedure NAME [formal-parameters] ;`.
        A local scope is entered, the procedure is entered into the global
        table (replacing an entry of the same name) and becomes the current
        procedure; the result of the formal parameters is not checked. */
    method ParseProcedureHead() returns (r: int)
      requires Valid() && !halted
      modifies this`pos, this`halted, this`scopes, this`curType, this`varNames, this`procName
      ensures Valid() && old(pos) <= pos && (halted ==> r == ERROR)
      ensures IdAt(toks, old(pos)) != TPROCEDURE ==> r == ERROR && pos == old(pos) && scopes == old(scopes)
      ensures r == NORMAL ==>
        IdAt(toks, old(pos)) == TPROCEDURE && IdAt(toks, old(pos) + 1) == TNAME && pos >= old(pos) + 3 &&
        IdAt(toks, pos - 1) == TSEMI && scopes.inLocal && procName == Some(toks[old(pos) + 1].str)
      ensures r == NORMAL || r == ERROR
    {
      if IdAt(toks, pos) != TPROCEDURE { return ERROR; }
      EnterScope();
      Consume();
      if IdAt(toks, pos) != TNAME { return ERROR; }
      var name := toks[pos].str;
      curType := Some(Type(TPPROC, -1, None, None));
      scopes := scopes.(global := TablePut(scopes.global, name, Id(name, None, CopyType(curType), false, toks[pos].lineNo, [])));
      procName := Some(name);
      Consume();
      if IdAt(toks, pos) == TLPAREN {
        var ignored := ParseFormalParameters();
        if halted { return ERROR; }
      }
      if IdAt(toks, pos) != TSEMI { return ERROR; }
      Consume();
      return NORMAL;
    }

    /** parseSubProgram: the head, then `[var-declaration] compound-statement ;`.
        At the end the local scope is printed and left. */
    method ParseSubProgram() returns (r: int)
      requires Valid() && !halted
      modifies this`pos, this`halted, this`scopes, this`curType, this`iterationLevel, this`varNames,
               this`procName, this`printed
      decreases |toks| - pos, 11
      ensures Valid() && old(pos) <= pos && (halted ==> r == ERROR)
      ensures iterationLevel >= old(iterationLevel)
      ensures IdAt(toks, old(pos)) != TPROCEDURE ==> r == ERROR && pos == old(pos) && scopes == old(scopes)
      ensures r == NORMAL ==>
        IdAt(toks, old(pos)) == TPROCEDURE && IdAt(toks, old(pos) + 1) == TNAME && pos >= old(pos) + 6 &&
        IdAt(toks, pos - 1) == TSEMI && IdAt(toks, pos - 2) == TEND && procName == None && !scopes.inLocal
      ensures r == NORMAL || r == ERROR
    {
      r := ParseProcedureHead();
      if r == ERROR { return ERROR; }
      if IdAt(toks, pos) == TVAR {
        r := ParseVarDeclaration();
        if r == ERROR { return ERROR; }
      }
      r := ParseCompoundStatement();
      if r == ERROR { return ERROR; }
      if IdAt(toks, pos) != TSEMI { return ERROR; }
      Consume();
      ExitScope();
      return NORMAL;
    }

    /** parseBlock: any number of variable declarations and procedures, then
        the compound statement. */
    method ParseBlock() returns (r: int)
      requires Valid() && !halted
      modifies this`pos, this`halted, this`scopes, this`curType, this`iterationLevel, this`varNames,
               this`procName, this`printed
      decreases |toks| - pos, 12
      ensures Valid() && old(pos) <= pos && (halted ==> r == ERROR)
      ensures iterationLevel >= old(iterationLevel)
      ensures r == NORMAL ==> pos >= old(pos) + 2 && IdAt(toks, pos - 1) == TEND
      ensures r == NORMAL || r == ERROR
    {
      while true
        invariant Valid() && !halted && old(pos) <= pos
        invariant iterationLevel >= old(iterationLevel)
        decreases |toks| - pos
      {
        if IdAt(toks, pos) == TVAR {
          r := ParseVarDeclaration();
          if r == ERROR { return ERROR; }
        } else if IdAt(toks, pos) == TPROCEDURE {
          r := ParseSubProgram();
          if r == ERROR { return ERROR; }
        } else {
          break;
        }
      }
      r := ParseCompoundStatement();
      if r == ERROR { return ERROR; }
      return NORMAL;
    }

    /** parseProgram: `program NAME ; block .`. */
    method ParseProgram() returns (r: int)
      requires Valid() && !halted
      modifies this`pos, this`halted, this`scopes, this`curType, this`iterationLevel, this`varNames,
               this`procName, this`printed
      decreases |toks| - pos, 13
      ensures Valid() && old(pos) <= pos && (halted ==> r == ERROR)
      ensures IdAt(toks, old(pos)) != TPROGRAM ==> r == ERROR && pos == old(pos)
      ensures r == NORMAL ==>
        IdAt(toks, old(pos)) == TPROGRAM && IdAt(toks, old(pos) + 1) == TNAME &&
        IdAt(toks, old(pos) + 2) == TSEMI && pos >= old(pos) + 6 &&
        IdAt(toks, pos - 2) == TEND && IdAt(toks, pos - 1) == TDOT
      ensures r == NORMAL || r == ERROR
    {
      if IdAt(toks, pos) != TPROGRAM { return ERROR; }
      Consume();
      if IdAt(toks, pos) != TNAME { return ERROR; }
      Consume();
      if IdAt(toks, pos) != TSEMI { return ERROR; }
      Consume();
      r := ParseBlock();
      if r == ERROR { return ERROR; }
      if IdAt(toks, pos) != TDOT { return ERROR; }
      Consume();
      return NORMAL;
    }
  }
}
