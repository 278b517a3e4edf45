// The pretty-printing recursive-descent parser of 2/parse.c.
//
// The C parser walks a linked list of tokens through the global `cur`; here the
// list is the sequence `toks` and `cur` is the index `pos`. The printed text is
// not modelled; what is kept is the state that decides control flow:
// `indent_level` (printIndent stops the program when it is negative),
// `at_bol`, `iteration_level` (a `break` outside a loop is an error) and the
// position. The token list the scanner builds ends with the EOF token, whose id
// 0 matches no grammar symbol, so a production that only consumes the token it
// has just matched never steps past it. Only the type-cast case of parseFactor
// consumes unchecked tokens; when it moves past the EOF token, `cur` becomes
// NULL and the next `cur->id` crashes, which the model records in `halted`.
module Parse2 {
  import opened Lpp
  import opened Grammar

  /** parse: parses a token list that ends with the EOF token; NORMAL only for
      a program that starts `program NAME ;` and ends with `.`. */
  method Parse(toks: seq<Token>) returns (r: int)
    requires |toks| > 0 && toks[|toks| - 1].id == 0
    ensures r == NORMAL || r == ERROR
    ensures r == NORMAL ==> IdAt(toks, 0) == TPROGRAM && IdAt(toks, 1) == TNAME && IdAt(toks, 2) == TSEMI
    ensures IdAt(toks, 0) != TPROGRAM ==> r == ERROR
  {
    var p := new Parser(toks);
    r := p.ParseProgram();
  }

  class Parser {
    const toks: seq<Token>
    var pos: nat
    var indentLevel: int
    var atBol: bool
    var iterationLevel: int
    var halted: bool

    /** The parser's state stays inside the token list, the indent level never
        becomes negative (so printIndent never stops the program), and the
        program halts exactly when it has stepped past the EOF token. */
    ghost predicate Valid()
      reads this
    {
      |toks| > 0 && toks[|toks| - 1].id == 0 && pos <= |toks| && (halted <==> pos == |toks|) &&
      indentLevel >= 0 && iterationLevel >= 0
    }

    /** The parser state at the start of parse, with `cur` at the first token. */
    constructor (toks: seq<Token>)
      requires |toks| > 0 && toks[|toks| - 1].id == 0
      ensures Valid() && this.toks == toks && pos == 0
      ensures indentLevel == 0 && !atBol && iterationLevel == 0
    {
      this.toks := toks;
      pos := 0;
      indentLevel := 0;
      atBol := false;
      iterationLevel := 0;
      halted := false;
    }

    /** printIndent: a negative indent level stops the program. */
    method PrintIndent()
      modifies this`halted
      ensures halted == (old(halted) || indentLevel < 0)
    {
      if indentLevel < 0 {
        halted := true;
      }
    }

    /** consumeToken: prints the token (indenting it when it starts a line)
        and moves `cur` to the next token. */
    method Consume()
      requires Valid() && !halted
      modifies this`pos, this`atBol, this`halted
      ensures Valid() && pos == old(pos) + 1 && !atBol
      ensures IdAt(toks, old(pos)) != 0 ==> !halted
    {
      var tok := toks[pos];
      if (tok.atBol || atBol) && tok.id != TPROGRAM {
        PrintIndent();
      }
      atBol := false;
      pos := pos + 1;
      halted := pos == |toks|;
    }

    /** parseType: a standard type, or `array [ NUMBER ] of` a standard type. */
    method ParseType() returns (r: int)
      requires Valid() && !halted
      modifies this`pos, this`atBol, this`halted
      ensures Valid() && !halted && old(pos) <= pos
      ensures r == NORMAL <==> IsStdType(IdAt(toks, old(pos))) || ArrayTypeAt(toks, old(pos))
      ensures r == NORMAL ==> pos == old(pos) + (if IsStdType(IdAt(toks, old(pos))) then 1 else 6)
      ensures r == NORMAL || r == ERROR
    {
      if IsStdType(IdAt(toks, pos)) {
        Consume();
      } else if IdAt(toks, pos) == TARRAY {
        Consume();
        if IdAt(toks, pos) != TLSQPAREN { return ERROR; }
        Consume();
        if IdAt(toks, pos) != TNUMBER { return ERROR; }
        Consume();
        if IdAt(toks, pos) != TRSQPAREN { return ERROR; }
        Consume();
        if IdAt(toks, pos) != TOF { return ERROR; }
        Consume();
        if !IsStdType(IdAt(toks, pos)) { return ERROR; }
        Consume();
      } else {
        return ERROR;
      }
      return NORMAL;
    }

    /** parseVarNames: `NAME {, NAME}`, read as far as the commas go. The
        first missing name is an error, without a message. */
    method ParseVarNames() returns (r: int)
      requires Valid() && !halted
      modifies this`pos, this`atBol, this`halted
      ensures Valid() && !halted && old(pos) <= pos
      ensures r == NORMAL ==> IdAt(toks, old(pos)) == TNAME && NameListAt(toks, old(pos), pos) && IdAt(toks, pos) != TCOMMA
      ensures r == ERROR ==>
        (pos == old(pos) && IdAt(toks, pos) != TNAME) ||
        (NameListAt(toks, old(pos), pos - 1) && IdAt(toks, pos - 1) == TCOMMA && IdAt(toks, pos) != TNAME)
      ensures r == NORMAL || r == ERROR
    {
      ghost var p := pos;
      if IdAt(toks, pos) != TNAME { return ERROR; }
      Consume();
      while IdAt(toks, pos) == TCOMMA
        invariant Valid() && !halted && IdAt(toks, p) == TNAME && NameListAt(toks, p, pos)
        decreases |toks| - pos
      {
        Consume();
        if IdAt(toks, pos) != TNAME { return ERROR; }
        Consume();
      }
      return NORMAL;
    }

    /** One `names : type ;` group of a variable declaration. */
    method ParseVarGroup() returns (r: int)
      requires Valid() && !halted
      modifies this`pos, this`atBol, this`halted
      ensures Valid() && !halted && old(pos) <= pos
      ensures r == NORMAL ==> IdAt(toks, old(pos)) == TNAME && pos >= old(pos) + 4 && IdAt(toks, pos - 1) == TSEMI
      ensures r == NORMAL || r == ERROR
    {
      r := ParseVarNames();
      if r == ERROR { return ERROR; }
      if IdAt(toks, pos) != TCOLON { return ERROR; }
      Consume();
      r := ParseType();
      if r == ERROR { return ERROR; }
      if IdAt(toks, pos) != TSEMI { return ERROR; }
      Consume();
      return NORMAL;
    }

    /** parseVarDeclaration: `var` followed by one or more groups. The indent
        level goes up by two for the declarations and is restored when they
        parse; after an error it stays raised. */
    method ParseVarDeclaration() returns (r: int)
      requires Valid() && !halted
      modifies this`pos, this`atBol, this`halted, this`indentLevel
      ensures Valid() && !halted && old(pos) <= pos
      ensures IdAt(toks, old(pos)) != TVAR ==> r == ERROR && pos == old(pos) && indentLevel == old(indentLevel)
      ensures r == NORMAL ==>
        IdAt(toks, old(pos)) == TVAR && pos >= old(pos) + 5 && IdAt(toks, pos - 1) == TSEMI &&
        IdAt(toks, pos) != TNAME && indentLevel == old(indentLevel)
      ensures r == ERROR && IdAt(toks, old(pos)) == TVAR ==> indentLevel == old(indentLevel) + 2
      ensures r == NORMAL || r == ERROR
    {
      if IdAt(toks, pos) != TVAR { return ERROR; }
      indentLevel := indentLevel + 1;
      Consume();
      indentLevel := indentLevel + 1;
      atBol := true;
      r := ParseVarGroup();
      if r == ERROR { return ERROR; }
      while IdAt(toks, pos) == TNAME
        invariant Valid() && !halted && pos >= old(pos) + 5 && IdAt(toks, pos - 1) == TSEMI
        invariant indentLevel == old(indentLevel) + 2
        decreases |toks| - pos
      {
        atBol := true;
        r := ParseVarGroup();
        if r == ERROR { return ERROR; }
      }
      indentLevel := indentLevel - 2;
      return NORMAL;
    }

    // Expressions. None of them changes the indent or iteration level; each
    // reads as many operators as follow it.

    /** parseTerm: `factor {mul-op factor}`. */
    method ParseTerm() returns (r: int)
      requires Valid() && !halted
      modifies this`pos, this`atBol, this`halted
      decreases |toks| - pos, 3
      ensures Valid() && old(pos) <= pos && (halted ==> r == ERROR)
      ensures r == NORMAL ==> pos > old(pos) && !IsMulOp(IdAt(toks, pos))
      ensures !StartsFactor(IdAt(toks, old(pos))) ==> r == ERROR && pos == old(pos)
      ensures r == NORMAL || r == ERROR
    {
      r := ParseFactor();
      if r == ERROR { return ERROR; }
      while IsMulOp(IdAt(toks, pos))
        invariant Valid() && !halted && pos > old(pos)
        decreases |toks| - pos
      {
        Consume();
        r := ParseFactor();
        if r == ERROR { return ERROR; }
      }
      return NORMAL;
    }

    /** parseSimpleExpression: `[+|-] term {add-op term}`. */
    method ParseSimpleExpression() returns (r: int)
      requires Valid() && !halted
      modifies this`pos, this`atBol, this`halted
      decreases |toks| - pos, 4
      ensures Valid() && old(pos) <= pos && (halted ==> r == ERROR)
      ensures r == NORMAL ==> pos > old(pos) && !IsAddOp(IdAt(toks, pos))
      ensures r == NORMAL || r == ERROR
    {
      if IdAt(toks, pos) == TPLUS || IdAt(toks, pos) == TMINUS {
        Consume();
      }
      r := ParseTerm();
      if r == ERROR { return ERROR; }
      while IsAddOp(IdAt(toks, pos))
        invariant Valid() && !halted && pos > old(pos)
        decreases |toks| - pos
      {
        Consume();
        r := ParseTerm();
        if r == ERROR { return ERROR; }
      }
      return NORMAL;
    }

    /** parseExpression: `simple {rel-op simple}` (the loop accepts a chain
        of comparisons). */
    method ParseExpression() returns (r: int)
      requires Valid() && !halted
      modifies this`pos, this`atBol, this`halted
      decreases |toks| - pos, 5
      ensures Valid() && old(pos) <= pos && (halted ==> r == ERROR)
      ensures r == NORMAL ==> pos > old(pos) && !IsRelOp(IdAt(toks, pos))
      ensures r == NORMAL || r == ERROR
    {
      r := ParseSimpleExpression();
      if r == ERROR { return ERROR; }
      while IsRelOp(IdAt(toks, pos))
        invariant Valid() && !halted && pos > old(pos)
        decreases |toks| - pos
      {
        Consume();
        r := ParseSimpleExpression();
        if r == ERROR { return ERROR; }
      }
      return NORMAL;
    }

    /** parseFactor: a variable, a constant, `( expression )`, `not factor`
        or a cast `standard-type ( expression )`. In the cast the two
        parentheses are reported when missing but consumed whatever they are,
        which steps past the EOF token when the list ends there. */
    method ParseFactor() returns (r: int)
      requires Valid() && !halted
      modifies this`pos, this`atBol, this`halted
      decreases |toks| - pos, 2
      ensures Valid() && old(pos) <= pos && (halted ==> r == ERROR)
      ensures r == NORMAL ==> pos > old(pos)
      ensures !StartsFactor(IdAt(toks, old(pos))) ==> r == ERROR && pos == old(pos)
      ensures r == NORMAL || r == ERROR
    {
      var id := IdAt(toks, pos);
      if id == TNAME {
        r := ParseVar();
        if r == ERROR { return ERROR; }
      } else if id == TNUMBER || id == TFALSE || id == TTRUE || id == TSTRING {
        Consume();
      } else if id == TLPAREN {
        Consume();
        r := ParseExpression();
        if r == ERROR { return ERROR; }
        if IdAt(toks, pos) != TRPAREN { return ERROR; }
        Consume();
      } else if id == TNOT {
        Consume();
        r := ParseFactor();
        if r == ERROR { return ERROR; }
      } else if IsStdType(id) {
        Consume();
        Consume();
        if halted { return ERROR; }
        r := ParseExpression();
        if r == ERROR { return ERROR; }
        Consume();
        if halted { return ERROR; }
      } else {
        return ERROR;
      }
      return NORMAL;
    }

    /** parseVar: `NAME [ [ expression ] ]`. */
    method ParseVar() returns (r: int)
      requires Valid() && !halted
      modifies this`pos, this`atBol, this`halted
      decreases |toks| - pos, 1
      ensures Valid() && old(pos) <= pos && (halted ==> r == ERROR)
      ensures IdAt(toks, old(pos)) != TNAME ==> r == ERROR && pos == old(pos)
      ensures r == NORMAL ==> (
        IdAt(toks, old(pos)) == TNAME &&
        ((pos == old(pos) + 1 && IdAt(toks, pos) != TLSQPAREN) ||
         (pos >= old(pos) + 4 && IdAt(toks, old(pos) + 1) == TLSQPAREN && IdAt(toks, pos - 1) == TRSQPAREN)))
      ensures r == NORMAL || r == ERROR
    {
      if IdAt(toks, pos) != TNAME { return ERROR; }
      Consume();
      if IdAt(toks, pos) == TLSQPAREN {
        Consume();
        r := ParseExpression();
        if r == ERROR { return ERROR; }
        if IdAt(toks, pos) != TRSQPAREN { return ERROR; }
        Consume();
      }
      return NORMAL;
    }

    // Statements. Each keeps the indent level when it parses; the iteration
    // level only grows.

    /** parseAssignment: `variable := expression`. */
    method ParseAssignment() returns (r: int)
      requires Valid() && !halted
      modifies this`pos, this`atBol, this`halted
      decreases |toks| - pos, 6
      ensures Valid() && old(pos) <= pos && (halted ==> r == ERROR)
      ensures r == NORMAL ==> IdAt(toks, old(pos)) == TNAME && pos >= old(pos) + 3
      ensures r == NORMAL || r == ERROR
    {
      r := ParseVar();
      if r == ERROR { return ERROR; }
      if IdAt(toks, pos) != TASSIGN { return ERROR; }
      Consume();
      r := ParseExpression();
      if r == ERROR { return ERROR; }
      return NORMAL;
    }

    /** A branch of a conditional: a statement that is indented one level
        further unless it is a compound statement. */
    method ParseBranch() returns (r: int)
      requires Valid() && !halted
      modifies this
      decreases |toks| - pos, 11
      ensures Valid() && old(pos) <= pos && (halted ==> r == ERROR)
      ensures iterationLevel >= old(iterationLevel)
      ensures r == NORMAL ==> indentLevel == old(indentLevel)
      ensures r == NORMAL || r == ERROR
    {
      atBol := true;
      var isBegin := IdAt(toks, pos) == TBEGIN;
      if !isBegin { indentLevel := indentLevel + 1; }
      r := ParseStatement();
      if r == ERROR { return ERROR; }
      if !isBegin { indentLevel := indentLevel - 1; }
      return NORMAL;
    }

    /** parseCondition: `if expression then statement [else statement]`. */
    method ParseCondition() returns (r: int)
      requires Valid() && !halted
      modifies this
      decreases |toks| - pos, 8
      ensures Valid() && old(pos) <= pos && (halted ==> r == ERROR)
      ensures iterationLevel >= old(iterationLevel)
      ensures IdAt(toks, old(pos)) != TIF ==> r == ERROR && pos == old(pos)
      ensures r == NORMAL ==> IdAt(toks, old(pos)) == TIF && indentLevel == old(indentLevel)
      ensures r == NORMAL || r == ERROR
    {
      if IdAt(toks, pos) != TIF { return ERROR; }
      Consume();
      r := ParseExpression();
      if r == ERROR { return ERROR; }
      if IdAt(toks, pos) != TTHEN { return ERROR; }
      Consume();
      r := ParseBranch();
      if r == ERROR { return ERROR; }
      if IdAt(toks, pos) == TELSE {
        Consume();
        r := ParseBranch();
        if r == ERROR { return ERROR; }
      }
      return NORMAL;
    }

    /** parseIteration: `while expression do statement`; the iteration level
        is raised for the body and never lowered again. */
    method ParseIteration() returns (r: int)
      requires Valid() && !halted
      modifies this
      decreases |toks| - pos, 8
      ensures Valid() && old(pos) <= pos && (halted ==> r == ERROR)
      ensures iterationLevel >= old(iterationLevel)
      ensures IdAt(toks, old(pos)) != TWHILE ==> r == ERROR && pos == old(pos)
      ensures r == NORMAL ==>
        IdAt(toks, old(pos)) == TWHILE && indentLevel == old(indentLevel) && iterationLevel > old(iterationLevel)
      ensures r == NORMAL || r == ERROR
    {
      if IdAt(toks, pos) != TWHILE { return ERROR; }
      Consume();
      r := ParseExpression();
      if r == ERROR { return ERROR; }
      if IdAt(toks, pos) != TDO { return ERROR; }
      Consume();
      iterationLevel := iterationLevel + 1;
      r := ParseStatement();
      if r == ERROR { return ERROR; }
      return NORMAL;
    }

    /** An expression list `expression {, expression}` up to the closing `)`. */
    method ParseExpressionList() returns (r: int)
      requires Valid() && !halted
      modifies this`pos, this`atBol, this`halted
      decreases |toks| - pos, 6
      ensures Valid() && old(pos) <= pos && (halted ==> r == ERROR)
      ensures r == NORMAL ==> pos >= old(pos) + 2 && IdAt(toks, pos - 1) == TRPAREN
      ensures r == NORMAL || r == ERROR
    {
      r := ParseExpression();
      if r == ERROR { return ERROR; }
      while IdAt(toks, pos) == TCOMMA
        invariant Valid() && !halted && pos > old(pos)
        decreases |toks| - pos
      {
        Consume();
        r := ParseExpression();
        if r == ERROR { return ERROR; }
      }
      if IdAt(toks, pos) != TRPAREN { return ERROR; }
      Consume();
      return NORMAL;
    }

    /** parseCall: `call NAME [ ( expression {, expression} ) ]`. */
    method ParseCall() returns (r: int)
      requires Valid() && !halted
      modifies this`pos, this`atBol, this`halted
      decreases |toks| - pos, 7
      ensures Valid() && old(pos) <= pos && (halted ==> r == ERROR)
      ensures IdAt(toks, old(pos)) != TCALL ==> r == ERROR && pos == old(pos)
      ensures r == NORMAL ==> (
        IdAt(toks, old(pos)) == TCALL && IdAt(toks, old(pos) + 1) == TNAME &&
        ((pos == old(pos) + 2 && IdAt(toks, pos) != TLPAREN) ||
         (pos >= old(pos) + 5 && IdAt(toks, old(pos) + 2) == TLPAREN && IdAt(toks, pos - 1) == TRPAREN)))
      ensures r == NORMAL || r == ERROR
    {
      if IdAt(toks, pos) != TCALL { return ERROR; }
      Consume();
      if IdAt(toks, pos) != TNAME { return ERROR; }
      Consume();
      if IdAt(toks, pos) == TLPAREN {
        Consume();
        r := ParseExpressionList();
        if r == ERROR { return ERROR; }
      }
      return NORMAL;
    }

    /** parseInput: `read` or `readln`, optionally followed by
        `( variable {, variable} )`. */
    method ParseInput() returns (r: int)
      requires Valid() && !halted
      modifies this`pos, this`atBol, this`halted
      decreases |toks| - pos, 7
      ensures Valid() && old(pos) <= pos && (halted ==> r == ERROR)
      ensures IdAt(toks, old(pos)) != TREAD && IdAt(toks, old(pos)) != TREADLN ==> r == ERROR && pos == old(pos)
      ensures r == NORMAL ==> (
        (IdAt(toks, old(pos)) == TREAD || IdAt(toks, old(pos)) == TREADLN) &&
        ((pos == old(pos) + 1 && IdAt(toks, pos) != TLPAREN) ||
         (pos >= old(pos) + 3 && IdAt(toks, old(pos) + 1) == TLPAREN && IdAt(toks, pos - 1) == TRPAREN)))
      ensures r == NORMAL || r == ERROR
    {
      if IdAt(toks, pos) != TREAD && IdAt(toks, pos) != TREADLN { return ERROR; }
      Consume();
      if IdAt(toks, pos) == TLPAREN {
        Consume();
        r := ParseVar();
        if r == ERROR { return ERROR; }
        while IdAt(toks, pos) == TCOMMA
          invariant Valid() && !halted && pos >= old(pos) + 3
          decreases |toks| - pos
        {
          Consume();
          r := ParseVar();
          if r == ERROR { return ERROR; }
        }
        if IdAt(toks, pos) != TRPAREN { return ERROR; }
        Consume();
      }
      return NORMAL;
    }

    /** parseOutputFormat: a string whose length is not 1, or an expression
        optionally followed by `: NUMBER`. A one-character string is a
        character constant and so goes through the expression case. */
    method ParseOutputFormat() returns (r: int)
      requires Valid() && !halted
      modifies this`pos, this`atBol, this`halted
      decreases |toks| - pos, 6
      ensures Valid() && old(pos) <= pos && (halted ==> r == ERROR)
      ensures r == NORMAL ==>
        (IdAt(toks, old(pos)) == TSTRING && toks[old(pos)].len != 1 && pos == old(pos) + 1) ||
        (pos > old(pos) && IdAt(toks, pos) != TCOLON && !IsRelOp(IdAt(toks, pos))) ||
        (pos >= old(pos) + 3 && IdAt(toks, pos - 2) == TCOLON && IdAt(toks, pos - 1) == TNUMBER)
      ensures r == NORMAL || r == ERROR
    {
      if IdAt(toks, pos) == TSTRING && toks[pos].len != 1 {
        Consume();
      } else {
        r := ParseExpression();
        if r == ERROR { return ERROR; }
        if IdAt(toks, pos) != TCOLON { return NORMAL; }
        Consume();
        if IdAt(toks, pos) != TNUMBER { return ERROR; }
        Consume();
      }
      return NORMAL;
    }

    /** parseOutputStatement: `write` or `writeln`, optionally followed by
        `( output-format {, output-format} )`. */
    method ParseOutputStatement() returns (r: int)
      requires Valid() && !halted
      modifies this`pos, this`atBol, this`halted
      decreases |toks| - pos, 7
      ensures Valid() && old(pos) <= pos && (halted ==> r == ERROR)
      ensures IdAt(toks, old(pos)) != TWRITE && IdAt(toks, old(pos)) != TWRITELN ==> r == ERROR && pos == old(pos)
      ensures r == NORMAL ==> (
        (IdAt(toks, old(pos)) == TWRITE || IdAt(toks, old(pos)) == TWRITELN) &&
        ((pos == old(pos) + 1 && IdAt(toks, pos) != TLPAREN) ||
         (pos >= old(pos) + 3 && IdAt(toks, old(pos) + 1) == TLPAREN && IdAt(toks, pos - 1) == TRPAREN)))
      ensures r == NORMAL || r == ERROR
    {
      if IdAt(toks, pos) != TWRITE && IdAt(toks, pos) != TWRITELN { return ERROR; }
      Consume();
      if IdAt(toks, pos) != TLPAREN { return NORMAL; }
      Consume();
      r := ParseOutputFormat();
      if r == ERROR { return ERROR; }
      while IdAt(toks, pos) == TCOMMA
        invariant Valid() && !halted && pos >= old(pos) + 3
        decreases |toks| - pos
      {
        Consume();
        r := ParseOutputFormat();
        if r == ERROR { return ERROR; }
      }
      if IdAt(toks, pos) != TRPAREN { return ERROR; }
      Consume();
      return NORMAL;
    }

    /** parseStatement: dispatches on the first token. A token no statement
        starts with is the empty statement, which consumes nothing; `break`
        outside every loop is an error. */
    method ParseStatement() returns (r: int)
      requires Valid() && !halted
      modifies this
      decreases |toks| - pos, 10
      ensures Valid() && old(pos) <= pos && (halted ==> r == ERROR)
      ensures iterationLevel >= old(iterationLevel)
      ensures r == NORMAL ==> indentLevel == old(indentLevel)
      ensures !StartsStatement(IdAt(toks, old(pos))) ==>
        r == NORMAL && pos == old(pos) && atBol == old(atBol) && iterationLevel == old(iterationLevel)
      ensures IdAt(toks, old(pos)) == TBREAK ==>
        (r == ERROR <==> old(iterationLevel) == 0) && (r == ERROR ==> pos == old(pos)) &&
        (r == NORMAL ==> pos == old(pos) + 1)
      ensures r == NORMAL || r == ERROR
    {
      r := NORMAL;
      var id := IdAt(toks, pos);
      if id == TNAME {
        r := ParseAssignment();
      } else if id == TIF {
        r := ParseCondition();
      } else if id == TWHILE {
        r := ParseIteration();
      } else if id == TBREAK {
        if iterationLevel == 0 { return ERROR; }
        Consume();
      } else if id == TCALL {
        r := ParseCall();
      } else if id == TRETURN {
        Consume();
      } else if id == TREAD || id == TREADLN {
        r := ParseInput();
      } else if id == TWRITE || id == TWRITELN {
        r := ParseOutputStatement();
      } else if id == TBEGIN {
        indentLevel := indentLevel + 1;
        r := ParseCompoundStatement();
        if r == ERROR { return ERROR; }
        indentLevel := indentLevel - 1;
      }
      if r == ERROR { return ERROR; }
      return NORMAL;
    }

    /** parseCompoundStatement: `begin statement {; statement} end`. Its
        statements are indented one level deeper; the level is restored
        before `end`. */
    method ParseCompoundStatement() returns (r: int)
      requires Valid() && !halted
      modifies this
      decreases |toks| - pos, 9
      ensures Valid() && old(pos) <= pos && (halted ==> r == ERROR)
      ensures iterationLevel >= old(iterationLevel)
      ensures IdAt(toks, old(pos)) != TBEGIN ==> r == ERROR && pos == old(pos) && indentLevel == old(indentLevel)
      ensures r == NORMAL ==>
        IdAt(toks, old(pos)) == TBEGIN && pos >= old(pos) + 2 && IdAt(toks, pos - 1) == TEND &&
        indentLevel == old(indentLevel)
      ensures r == NORMAL || r == ERROR
    {
      if IdAt(toks, pos) != TBEGIN { return ERROR; }
      Consume();
      indentLevel := indentLevel + 1;
      atBol := true;
      r := ParseStatement();
      if r == ERROR { return ERROR; }
      while IdAt(toks, pos) == TSEMI
        invariant Valid() && !halted && pos > old(pos)
        invariant iterationLevel >= old(iterationLevel) && indentLevel == old(indentLevel) + 1
        decreases |toks| - pos
      {
        Consume();
        atBol := true;
        r := ParseStatement();
        if r == ERROR { return ERROR; }
      }
      if IdAt(toks, pos) != TEND { return ERROR; }
      indentLevel := indentLevel - 1;
      Consume();
      return NORMAL;
    }

    // Declarations and the program.

    /** One `names : type` section of a formal parameter list. The C code
        treats any non-zero result of parseVarNames and parseType as an error. */
    method ParseParameterSection() returns (r: int)
      requires Valid() && !halted
      modifies this`pos, this`atBol, this`halted
      ensures Valid() && !halted && old(pos) <= pos
      ensures r == NORMAL ==> IdAt(toks, old(pos)) == TNAME && pos >= old(pos) + 3
      ensures r == NORMAL || r == ERROR
    {
      r := ParseVarNames();
      if r != NORMAL { return ERROR; }
      if IdAt(toks, pos) != TCOLON { return ERROR; }
      Consume();
      r := ParseType();
      if r != NORMAL { return ERROR; }
      return NORMAL;
    }

    /** parseFormalParamters: `( section {; section} )`. */
    method ParseFormalParameters() returns (r: int)
      requires Valid() && !halted
      modifies this`pos, this`atBol, this`halted
      ensures Valid() && !halted && old(pos) <= pos
      ensures IdAt(toks, old(pos)) != TLPAREN ==> r == ERROR && pos == old(pos)
      ensures r == NORMAL ==>
        IdAt(toks, old(pos)) == TLPAREN && pos >= old(pos) + 5 && IdAt(toks, pos - 1) == TRPAREN
      ensures r == NORMAL || r == ERROR
    {
      if IdAt(toks, pos) != TLPAREN { return ERROR; }
      Consume();
      r := ParseParameterSection();
      if r == ERROR { return ERROR; }
      while IdAt(toks, pos) == TSEMI
        invariant Valid() && !halted && pos >= old(pos) + 4
        decreases |toks| - pos
      {
        Consume();
        r := ParseParameterSection();
        if r == ERROR { return ERROR; }
      }
      if IdAt(toks, pos) != TRPAREN { return ERROR; }
      Consume();
      return NORMAL;
    }

    /** parseSubProgram: `procedure NAME [formal-parameters] ; [var-declaration]
        compound-statement ;`. The indent level is set to 1 for the body and
        left at 0. The result of the formal parameter list is not checked: a
        malformed list stops where it fails and parsing goes on from there. */
    method ParseSubProgram() returns (r: int)
      requires Valid() && !halted
      modifies this
      decreases |toks| - pos, 11
      ensures Valid() && old(pos) <= pos && (halted ==> r == ERROR)
      ensures iterationLevel >= old(iterationLevel)
      ensures IdAt(toks, old(pos)) != TPROCEDURE ==> r == ERROR && pos == old(pos) && indentLevel == old(indentLevel)
      ensures r == NORMAL ==>
        IdAt(toks, old(pos)) == TPROCEDURE && IdAt(toks, old(pos) + 1) == TNAME && pos >= old(pos) + 6 &&
        IdAt(toks, pos - 1) == TSEMI && IdAt(toks, pos - 2) == TEND && indentLevel == 0
      ensures r == NORMAL || r == ERROR
    {
      if IdAt(toks, pos) != TPROCEDURE { return ERROR; }
      indentLevel := 1;
      Consume();
      if IdAt(toks, pos) != TNAME { return ERROR; }
      Consume();
      if IdAt(toks, pos) == TLPAREN {
        var ignored := ParseFormalParameters();
      }
      if IdAt(toks, pos) != TSEMI { return ERROR; }
      Consume();
      if IdAt(toks, pos) == TVAR {
        r := ParseVarDeclaration();
        if r == ERROR { return ERROR; }
      }
      r := ParseCompoundStatement();
      if r == ERROR { return ERROR; }
      if IdAt(toks, pos) != TSEMI { return ERROR; }
      Consume();
      indentLevel := indentLevel - 1;
      return NORMAL;
    }

    /** parseBlock: any number of variable declarations and procedures, then
        the compound statement. A variable declaration here starts from
        indent level 0, and so does the rest after a procedure. */
    method ParseBlock() returns (r: int)
      requires Valid() && !halted
      modifies this
      decreases |toks| - pos, 12
      ensures Valid() && old(pos) <= pos && (halted ==> r == ERROR)
      ensures iterationLevel >= old(iterationLevel)
      ensures r == NORMAL ==>
        pos >= old(pos) + 2 && IdAt(toks, pos - 1) == TEND &&
        (indentLevel == old(indentLevel) || indentLevel == 0)
      ensures r == NORMAL || r == ERROR
    {
      while true
        invariant Valid() && !halted && old(pos) <= pos
        invariant iterationLevel >= old(iterationLevel)
        invariant indentLevel == old(indentLevel) || indentLevel == 0
        decreases |toks| - pos
      {
        if IdAt(toks, pos) == TVAR {
          indentLevel := 0;
          r := ParseVarDeclaration();
          if r == ERROR { return ERROR; }
        } else if IdAt(toks, pos) == TPROCEDURE {
          r := ParseSubProgram();
          if r == ERROR { return ERROR; }
        } else {
          break;
        }
      }
      r := ParseCompoundStatement();
      if r == ERROR { return ERROR; }
      return NORMAL;
    }

    /** parseProgram: `program NAME ; block .`. */
    method ParseProgram() returns (r: int)
      requires Valid() && !halted
      modifies this
      decreases |toks| - pos, 13
      ensures Valid() && old(pos) <= pos && (halted ==> r == ERROR)
      ensures IdAt(toks, old(pos)) != TPROGRAM ==> r == ERROR && pos == old(pos)
      ensures r == NORMAL ==>
        IdAt(toks, old(pos)) == TPROGRAM && IdAt(toks, old(pos) + 1) == TNAME &&
        IdAt(toks, old(pos) + 2) == TSEMI && pos >= old(pos) + 6 &&
        IdAt(toks, pos - 2) == TEND && IdAt(toks, pos - 1) == TDOT
      ensures r == NORMAL || r == ERROR
    {
      if IdAt(toks, pos) != TPROGRAM { return ERROR; }
      Consume();
      if IdAt(toks, pos) != TNAME { return ERROR; }
      Consume();
      if IdAt(toks, pos) != TSEMI { return ERROR; }
      Consume();
      r := ParseBlock();
      if r == ERROR { return ERROR; }
      if IdAt(toks, pos) != TDOT { return ERROR; }
      Consume();
      return NORMAL;
    }
  }
}
