// The code generator of iteration 4 (4/codegen.c): a second recursive-descent
// walk over the token list that prints CASL II assembly, one line at a time,
// taking the label and the type text of every name from the cross-reference
// records (module SymbolRecords). The printed lines are kept as a sequence;
// `getLabelNum`'s static counter, `procname` and `parameter_stack` are fields
// of the generator.
module CodeGen {
  import opened Wrappers
  import opened Lpp
  import opened Chars
  import opened Grammar
  import opened Symbols
  import opened SymbolRecords

  // ---------------------------------------------------------------------
  // Printed lines

  /** One printed line, by the helper that prints it. */
  datatype Instr =
    | Op(opc: string, opr: string)   // genCode: TAB opc TAB opr
    | OpNum(opc: string, reg: string, n: int) // TAB opc TAB reg, then n in %d
    | Jump(opc: string, target: nat) // genCodeLabel: TAB opc TAB L%04d
    | Def3(num: nat)                 // genLabel: L%03d
    | Def4(num: nat)                 // println("L%04d")
    | Line(text: string)             // any other println, as printed

  /** A label as jump operands spell it: L%04d. */
  function Label4(l: nat): string { "L" + ZeroPad(l, 4) }

  /** A label as genLabel spells it: L%03d. */
  function Label3(l: nat): string { "L" + ZeroPad(l, 3) }

  function Render(i: Instr): string
  {
    match i
    case Op(opc, opr) => "\t" + opc + "\t" + opr
    case OpNum(opc, reg, n) => "\t" + opc + "\t" + reg + IntToString(n)
    case Jump(opc, l) => "\t" + opc + "\t" + Label4(l)
    case Def3(l) => Label3(l)
    case Def4(l) => Label4(l)
    case Line(t) => t
  }

  /** The lines printed for a run of instructions, in order. */
  function Lines(code: seq<Instr>): (r: seq<string>)
    ensures |r| == |code|
  {
    if code == [] then [] else [Render(code[0])] + Lines(code[1..])
  }

  lemma {:induction false} LinesAppend(a: seq<Instr>, b: seq<Instr>)
    ensures Lines(a + b) == Lines(a) + Lines(b)
    decreases |a|
  {
    if a != [] {
      assert (a + b)[1..] == a[1..] + b;
      LinesAppend(a[1..], b);
    } else {
      assert a + b == b;
    }
  }

  // ---------------------------------------------------------------------
  // Label texts

  function Pow10(k: nat): nat
  {
    if k == 0 then 1 else 10 * Pow10(k - 1)
  }

  /** %d prints at most k digits for a number below 10^k, more for the rest. */
  lemma {:induction false} NatToStringWidth(n: nat, k: nat)
    requires k >= 1
    ensures n < Pow10(k) ==> |NatToString(n)| <= k
    ensures n >= Pow10(k) ==> |NatToString(n)| > k
    decreases k
  {
    if k == 1 {
    } else if n >= 10 {
      NatToStringWidth(n / 10, k - 1);
      assert n < Pow10(k) ==> n / 10 < Pow10(k - 1);
      assert n >= Pow10(k) ==> n / 10 >= Pow10(k - 1);
    } else {
      assert Pow10(k) >= 10 by { Pow10AtLeastTen(k); }
    }
  }

  lemma {:induction false} Pow10AtLeastTen(k: nat)
    requires k >= 1
    ensures Pow10(k) >= 10
    decreases k
  {
    if k > 1 {
      Pow10AtLeastTen(k - 1);
    }
  }

  /** Zero-padded numbers of one width are distinct texts for distinct numbers. */
  lemma ZeroPadInjective(a: nat, b: nat, w: nat)
    requires ZeroPad(a, w) == ZeroPad(b, w)
    ensures a == b
  {
    var s := ZeroPad(a, w);
    var da, db := NatToString(a), NatToString(b);
    if |da| == |db| {
      assert da == s[|s| - |da|..] == db;
      DecimalValueOfNatToString(a);
      DecimalValueOfNatToString(b);
    } else {
      assert false;
    }
  }

  /** Label numbers are distinct texts in either spelling: getLabelNum never
      hands out a number twice, so no two labels collide. */
  lemma LabelsDistinct(a: nat, b: nat)
    requires a != b
    ensures Label4(a) != Label4(b) && Label3(a) != Label3(b)
  {
    if Label4(a) == Label4(b) {
      assert ZeroPad(a, 4) == Label4(a)[1..] == Label4(b)[1..] == ZeroPad(b, 4);
      ZeroPadInjective(a, b, 4);
    }
    if Label3(a) == Label3(b) {
      assert ZeroPad(a, 3) == Label3(a)[1..] == Label3(b)[1..] == ZeroPad(b, 3);
      ZeroPadInjective(a, b, 3);
    }
  }

  /** A line genLabel prints defines the label a jump operand names only when
      the two are the same number and that number has four digits or more:
      below 1000, L%03d and L%04d spell the same number differently. */
  lemma LabelTextsMeet(a: nat, b: nat)
    ensures Label3(a) == Label4(b) <==> a == b && a >= 1000
  {
    assert Pow10(3) == 1000;
    NatToStringWidth(a, 3);
    if a >= 1000 {
      assert ZeroPad(a, 3) == ZeroPad(a, 4) == NatToString(a);
      if a != b {
        LabelsDistinct(a, b);
      }
    } else {
      assert |ZeroPad(a, 3)| == 3;
      assert |Label3(a)| == 4 < |Label4(b)|;
    }
  }

  /** A line that starts with a tab is never a label line. */
  lemma TabLineIsNoLabel(i: Instr, l: nat)
    requires i.Op? || i.OpNum? || i.Jump?
    ensures Render(i) != Label4(l) && Render(i) != Label3(l)
  {
    assert Render(i)[0] == '\t';
    assert Label4(l)[0] == 'L' && Label3(l)[0] == 'L';
  }

  // ---------------------------------------------------------------------
  // Meaning of the comparison and boolean-store blocks

  /** The condition a jump tests on the flags CPA left for the difference d. */
  predicate Fires(opc: string, d: int)
  {
    (opc == "JZE" && d == 0) || (opc == "JNZ" && d != 0) ||
    (opc == "JMI" && d < 0) || (opc == "JPL" && d > 0)
  }

  /** Line `i` is read by the assembler as the definition of the label a
      jump to `l` names (L%04d): a genLabel line (L%03d) only when the two
      spellings agree, from 1000 on. */
  predicate Defines(i: Instr, l: nat)
  {
    match i
    case Def4(m) => m == l
    case Def3(m) => m == l && l >= 1000
    case Line(t) => t == Label4(l)
    case _ => false
  }

  /** Defines is exactly the text comparison of the printed line with the
      jump operand. */
  lemma DefinesIsTextual(i: Instr, l: nat)
    ensures Defines(i, l) <==> Render(i) == Label4(l)
  {
    match i
    case Def4(m) =>
      if m != l {
        LabelsDistinct(m, l);
      }
    case Def3(m) => LabelTextsMeet(m, l);
    case Line(_) =>
    case _ => TabLineIsNoLabel(i, l);
  }

  /** The index of the first line that defines the label `l`, or -1: where
      the assembler resolves a jump to `l`. */
  function Target(prog: seq<Instr>, l: nat): (k: int)
    ensures -1 <= k < |prog|
  {
    if prog == [] then -1
    else if Defines(prog[0], l) then 0
    else (var k := Target(prog[1..], l); if k < 0 then -1 else k + 1)
  }

  /** Target finds a defining line, and no line before it defines the
      label; -1 means no line does. */
  lemma {:induction false} TargetFirst(prog: seq<Instr>, l: nat)
    ensures Target(prog, l) >= 0 ==> Defines(prog[Target(prog, l)], l)
    ensures forall j :: 0 <= j < |prog| && (Target(prog, l) < 0 || j < Target(prog, l)) ==> !Defines(prog[j], l)
  {
    if prog != [] && !Defines(prog[0], l) {
      TargetFirst(prog[1..], l);
      forall j | 1 <= j < |prog|
        ensures prog[j] == prog[1..][j - 1]
      {
      }
    }
  }

  /** Runs a block from `pc` over the loads of 0 and 1 into GR1, jumps and
      label lines, with the flags of a comparison whose difference is `d`:
      Some(final GR1) when control leaves the block at its end, None on a
      jump to a label no line defines or on any other instruction. */
  function Run(prog: seq<Instr>, pc: nat, d: int, gr1: int, fuel: nat): Option<int>
    decreases fuel
  {
    if pc >= |prog| then Some(gr1)
    else if fuel == 0 then None
    else match prog[pc]
      case Op(opc, opr) =>
        if opc == "LAD" && opr == "GR1,0" then Run(prog, pc + 1, d, 0, fuel - 1)
        else if opc == "LAD" && opr == "GR1,1" then Run(prog, pc + 1, d, 1, fuel - 1)
        else None
      case OpNum(_, _, _) => None
      case Jump(opc, l) =>
        if opc == "JUMP" || Fires(opc, d) then
          (var k := Target(prog, l); if k < 0 then None else Run(prog, k, d, gr1, fuel - 1))
        else Run(prog, pc + 1, d, gr1, fuel - 1)
      case Def3(_) => Run(prog, pc + 1, d, gr1, fuel - 1)
      case Def4(_) => Run(prog, pc + 1, d, gr1, fuel - 1)
      case Line(_) => None
  }

  /** The relation a relational operator denotes between its left operand a
      and its right operand b. */
  predicate Holds(op: int, a: int, b: int)
  {
    if op == TEQUAL then a == b
    else if op == TNOTEQ then a != b
    else if op == TLE then a < b
    else if op == TLEEQ then a <= b
    else if op == TGR then a > b
    else a >= b
  }

  /** The conditional jumps pExpression prints for a relational operator. */
  function RelJumps(op: int, l: nat): seq<Instr>
  {
    if op == TEQUAL then [Jump("JZE", l)]
    else if op == TNOTEQ then [Jump("JNZ", l)]
    else if op == TLE then [Jump("JMI", l)]
    else if op == TLEEQ then [Jump("JMI", l), Jump("JZE", l)]
    else if op == TGR then [Jump("JPL", l)]
    else if op == TGREQ then [Jump("JPL", l), Jump("JZE", l)]
    else []
  }

  /** What pExpression prints after `CPA GR2,GR1` for one relation. */
  function RelationTail(op: int, l1: nat, l2: nat): seq<Instr>
  {
    RelJumps(op, l1) + [Op("LAD", "GR1,0"), Jump("JUMP", l2), Def4(l1), Op("LAD", "GR1,1"), Def4(l2)]
  }

  /** What pExpression prints for one relation after its right operand: the
      left operand is popped into GR2 and compared with GR1. */
  function RelationBlock(op: int, l1: nat, l2: nat): seq<Instr>
  {
    [Op("POP", "GR2"), Op("CPA", "GR2,GR1")] + RelationTail(op, l1, l2)
  }

  /** The first line that defines a label is where a jump to it goes. */
  lemma {:induction false} TargetIs(prog: seq<Instr>, l: nat, k: nat)
    requires k < |prog| && Defines(prog[k], l)
    requires forall j :: 0 <= j < k ==> !Defines(prog[j], l)
    ensures Target(prog, l) == k
    decreases k
  {
    if k > 0 {
      assert !Defines(prog[0], l);
      TargetIs(prog[1..], l, k - 1);
    }
  }

  /** The two ways out of a relation block behind its jumps: from the label
      l1 with 1 loaded, and falling through with 0 loaded. */
  lemma RelationExits(op: int, l1: nat, l2: nat, d: int, gr1: int, fuel: nat)
    requires IsRelOp(op) && l1 != l2 && 8 <= fuel
    ensures Run(RelationTail(op, l1, l2), |RelJumps(op, l1)| + 2, d, gr1, fuel) == Some(1)
    ensures Run(RelationTail(op, l1, l2), |RelJumps(op, l1)|, d, gr1, fuel) == Some(0)
  {
    var prog := RelationTail(op, l1, l2);
    var n := |RelJumps(op, l1)|;
    assert |prog| == n + 5;
    assert prog[n] == Op("LAD", "GR1,0") && prog[n + 1] == Jump("JUMP", l2) && prog[n + 2] == Def4(l1);
    assert prog[n + 3] == Op("LAD", "GR1,1") && prog[n + 4] == Def4(l2);
    assert forall j :: 0 <= j < n ==> prog[j].Jump?;
    TargetIs(prog, l2, n + 4);
    assert Run(prog, n + 5, d, 1, fuel - 3) == Some(1);
    assert Run(prog, n + 4, d, 1, fuel - 2) == Some(1);
    assert Run(prog, n + 3, d, gr1, fuel - 1) == Some(1);
    assert Run(prog, n + 5, d, 0, fuel - 3) == Some(0);
    assert Run(prog, n + 4, d, 0, fuel - 2) == Some(0);
    assert Run(prog, n + 1, d, 0, fuel - 1) == Some(0);
  }

  /** One step of a conditional jump whose label the block defines at k. */
  lemma CondJumpStep(prog: seq<Instr>, pc: nat, d: int, gr1: int, fuel: nat, k: int)
    requires pc < |prog| && prog[pc].Jump? && prog[pc].opc != "JUMP" && 1 <= fuel
    requires Target(prog, prog[pc].target) == k
    ensures Run(prog, pc, d, gr1, fuel) ==
      if !Fires(prog[pc].opc, d) then Run(prog, pc + 1, d, gr1, fuel - 1)
      else if k < 0 then None
      else Run(prog, k, d, gr1, fuel - 1)
  {
  }

  /** One step of `LAD GR1,0` or `LAD GR1,1`. */
  lemma LoadStep(prog: seq<Instr>, pc: nat, d: int, gr1: int, fuel: nat, v: int)
    requires pc < |prog| && 1 <= fuel
    requires (v == 0 && prog[pc] == Op("LAD", "GR1,0")) || (v == 1 && prog[pc] == Op("LAD", "GR1,1"))
    ensures Run(prog, pc, d, gr1, fuel) == Run(prog, pc + 1, d, v, fuel - 1)
  {
  }

  /** The jumps printed for a relation fire, on the flags of a - b, exactly
      when the relation holds. */
  lemma RelJumpsFire(op: int, l: nat, a: int, b: int)
    requires IsRelOp(op)
    ensures var js := RelJumps(op, l);
      1 <= |js| <= 2 && (forall j :: 0 <= j < |js| ==> js[j].Jump? && js[j].target == l && js[j].opc != "JUMP") &&
      (|js| == 1 ==> (Fires(js[0].opc, a - b) <==> Holds(op, a, b))) &&
      (|js| == 2 ==> (Fires(js[0].opc, a - b) || Fires(js[1].opc, a - b) <==> Holds(op, a, b)))
  {
  }

  /** Comparing the left operand a with the right operand b, the relation block
      leaves 1 in GR1 exactly when the relation holds and 0 otherwise. */
  lemma RelationComputes(op: int, a: int, b: int, l1: nat, l2: nat, gr1: int)
    requires IsRelOp(op) && l1 != l2
    ensures Run(RelationTail(op, l1, l2), 0, a - b, gr1, 10) == Some(if Holds(op, a, b) then 1 else 0)
  {
    var prog := RelationTail(op, l1, l2);
    var js := RelJumps(op, l1);
    var n := |js|;
    var d := a - b;
    RelJumpsFire(op, l1, a, b);
    assert prog[..n] == js && prog[n + 2] == Def4(l1);
    assert forall j :: 0 <= j < n + 2 ==> !Defines(prog[j], l1);
    TargetIs(prog, l1, n + 2);
    RelationExits(op, l1, l2, d, gr1, 8);
    RelationExits(op, l1, l2, d, gr1, 9);
    CondJumpStep(prog, 0, d, gr1, 10, n + 2);
    if n == 2 {
      CondJumpStep(prog, 1, d, gr1, 9, n + 2);
    }
  }

  /** genStoreBoolean: meant to turn GR1 into 0 when it is 0 and into 1
      otherwise (what it does is StoreBooleanRuns). Seven lines: the jump on
      zero names `t`, the jump after loading 1 names `e`, and the two label
      lines define `t` before the load of 0 and `e` at the end. */
  function StoreBoolean(t: nat, e: nat): (code: seq<Instr>)
    ensures |code| == 7 && code[0] == Op("CPA", "GR1,GR0")
    ensures code[1] == Jump("JZE", t) && code[2] == Op("LAD", "GR1,1") && code[3] == Jump("JUMP", e)
    ensures code[4] == Def3(t) && code[5] == Op("LAD", "GR1,0") && code[6] == Def3(e)
  {
    [Op("CPA", "GR1,GR0"), Jump("JZE", t), Op("LAD", "GR1,1"), Jump("JUMP", e),
     Def3(t), Op("LAD", "GR1,0"), Def3(e)]
  }

  /** The jumps of genStoreBoolean name L%04d labels and its label lines are
      L%03d, so a jump reaches its label only from label number 1000 on; below
      that the block refers to labels nothing defines. After `CPA GR1,GR0`
      (GR0 holds 0) the flags are those of GR1 itself. */
  lemma StoreBooleanRuns(t: nat, e: nat, g: int)
    requires t != e
    ensures Run(StoreBoolean(t, e)[1..], 0, g, g, 8) ==
      if g == 0 then (if t >= 1000 then Some(0) else None)
      else (if e >= 1000 then Some(1) else None)
  {
    var prog := StoreBoolean(t, e)[1..];
    assert |prog| == 6 && prog[0] == Jump("JZE", t) && prog[3] == Def3(t);
    var kt := if t >= 1000 then 3 else -1;
    if t >= 1000 {
      TargetIs(prog, t, 3);
    } else {
      assert prog[1].Op? && prog[2].Jump? && prog[4].Op? && prog[5] == Def3(e);
      TargetFirst(prog, t);
    }
    CondJumpStep(prog, 0, g, g, 8, kt);
    if g == 0 {
      if t >= 1000 {
        StoreBooleanZero(t, e, g);
      }
    } else {
      StoreBooleanNonZero(t, e, g);
    }
  }

  /** Behind the label t: 0 is loaded and the block is left. */
  lemma StoreBooleanZero(t: nat, e: nat, g: int)
    ensures Run(StoreBoolean(t, e)[1..], 3, g, g, 7) == Some(0)
  {
    var prog := StoreBoolean(t, e)[1..];
    assert |prog| == 6 && prog[3] == Def3(t) && prog[4] == Op("LAD", "GR1,0") && prog[5] == Def3(e);
    LoadStep(prog, 4, g, g, 6, 0);
  }

  /** Falling through the jump: 1 is loaded and the jump to e leaves the
      block when e is a label the assembler finds. */
  lemma StoreBooleanNonZero(t: nat, e: nat, g: int)
    requires t != e
    ensures Run(StoreBoolean(t, e)[1..], 1, g, g, 7) == if e >= 1000 then Some(1) else None
  {
    var prog := StoreBoolean(t, e)[1..];
    assert |prog| == 6 && prog[1] == Op("LAD", "GR1,1") && prog[2] == Jump("JUMP", e);
    assert prog[0] == Jump("JZE", t) && prog[3] == Def3(t) && prog[4] == Op("LAD", "GR1,0") && prog[5] == Def3(e);
    LoadStep(prog, 1, g, g, 7, 1);
    if e >= 1000 {
      TargetIs(prog, e, 5);
      assert Run(prog, 5, g, 1, 5) == Some(1);
    } else {
      TargetFirst(prog, e);
    }
  }

  // ---------------------------------------------------------------------
  // Type conversions, reads and writes

  /** The kinds a factor or an expression can yield, or ERROR. */
  predicate IsKindOrError(k: int)
  {
    k == ERROR || k == TPINT || k == TPCHAR || k == TPBOOL
  }

  /** The code a standard-type conversion `integer(e)`, `boolean(e)` or
      `char(e)` appends after its operand of kind `inner`, the fresh labels
      starting at `l`; None when the operand's kind is refused. */
  function CastCode(target: int, inner: int, l: nat): (c: Option<seq<Instr>>)
    requires IsStdType(target)
    ensures c.Some? <==> inner == TPINT || inner == TPCHAR || inner == TPBOOL
    ensures c.Some? && DecodeIdToKind(target, false) == inner ==> c.value == []
    ensures c.Some? && (target == TBOOLEAN || inner == TPBOOL) && DecodeIdToKind(target, false) != inner ==>
      c.value == StoreBoolean(l, l + 1)
  {
    if !(inner == TPINT || inner == TPCHAR || inner == TPBOOL) then None
    else if target == TINTEGER then Some(if inner == TPBOOL then StoreBoolean(l, l + 1) else [])
    else if target == TBOOLEAN then Some(if inner == TPBOOL then [] else StoreBoolean(l, l + 1))
    else Some(if inner == TPINT then [Op("LAD", "#007F"), Op("AND", "GR1,GR2"), Op("LAD", "GR2,0")]
              else if inner == TPBOOL then StoreBoolean(l, l + 1) else [])
  }

  predicate CanRead(kind: int)
  {
    kind == TPINT || kind == TPCHAR
  }

  /** genRead: the runtime routine that reads a value of the kind. */
  function ReadCall(kind: int): (r: seq<Instr>)
    ensures |r| <= 1 && (r != [] <==> CanRead(kind))
  {
    if kind == TPINT then [Op("CALL", "READINT")]
    else if kind == TPCHAR then [Op("CALL", "READCHAR")]
    else []
  }

  /** genWrite: the runtime routine that writes a value of the kind. */
  function WriteCall(kind: int): (r: seq<Instr>)
    ensures |r| <= 1 && (r != [] <==> kind == TPINT || kind == TPBOOL || kind == TPCHAR)
  {
    if kind == TPINT then [Op("CALL", "WRITEINT")]
    else if kind == TPBOOL then [Op("CALL", "WRITEBOOL")]
    else if kind == TPCHAR then [Op("CALL", "WRITECHAR")]
    else []
  }

  /** pOutputFormat for a string literal. */
  function StringWrite(s: string): seq<Instr>
  {
    [Op("LAD", "GR1,='" + s + "'"), Op("LAD", "GR2,0"), Op("CALL", "WRITESTR")]
  }

  /** The range check and address computation pVar prints after an index. */
  function IndexCheck(size: int, lbl: string): seq<Instr>
  {
    [Op("CPA", "GR1,GR0"), Op("JMI", "EROV"), OpNum("LAD", "GR2,", size - 1),
     Op("CPA", "GR1,GR2"), Op("JPL", "EROV"), Op("LAD", "GR1," + lbl + ",GR1")]
  }

  /** The two jumps to EROV leave exactly the indices 0 .. size-1 through. */
  lemma IndexCheckBounds(i: int, size: int)
    ensures !(Fires("JMI", i - 0) || Fires("JPL", i - (size - 1))) <==> 0 <= i < size
  {
  }

  /** What the statement `return` prints: RET inside a procedure, the flush
      and the stop of the program outside. */
  function ReturnCode(proc: Option<string>): seq<Instr>
  {
    if proc.Some? then [Line("\tRET")] else [Op("CALL", "FLUSH"), Op("SVC", "0")]
  }

  /** The code of a multiplying operator, GR2 holding the left operand and
      GR1 the right: the result is left in GR1. */
  function MulCode(op: int): (code: seq<Instr>)
    ensures |code| >= 1
  {
    if op == TSTAR then [Op("MULA", "GR1,GR2")]
    else if op == TDIV then [Op("DIVA", "GR2,GR1"), Op("LD", "GR1,GR2")]
    else [Op("AND", "GR1,GR2")]
  }

  /** The same for an adding operator. */
  function AddCode(op: int): (code: seq<Instr>)
    ensures |code| >= 1
  {
    if op == TPLUS then [Op("ADDA", "GR1,GR2")]
    else if op == TMINUS then [Op("SUBA", "GR2,GR1"), Op("LD", "GR1,GR2")]
    else [Op("OR", "GR1,GR2")]
  }

  function MulKind(op: int): int { if op == TAND then TPBOOL else TPINT }

  /** The same for a simple expression: `or` gives a boolean, `+` and `-` an
      integer. */
  function AddKind(op: int): int { if op == TOR then TPBOOL else TPINT }

  // ---------------------------------------------------------------------
  // Names and declarations

  function StrAt(toks: seq<Token>, i: int): string
  {
    if 0 <= i < |toks| then toks[i].str else ""
  }

  predicate IdentAt(toks: seq<Token>, i: int)
  {
    0 <= i < |toks| && toks[i].kind == TK_IDENT
  }

  /** snprintf(key, 256, "%s:%s", name, proc): the scoped key, cut to 255
      characters. */
  function ScopedKey(name: string, proc: string): string
  {
    var full := name + ":" + proc;
    if |full| <= 255 then full else full[..255]
  }

  /** The key pVarNames declares a name under. */
  function DeclKey(name: string, proc: Option<string>): string
  {
    if proc.Some? then ScopedKey(name, proc.value) else name
  }

  /** The record pVar uses for a name: inside a procedure the scoped record,
      else the global one of that spelling. */
  function VarSymbol(syms: seq<Symbol>, name: string, proc: Option<string>): Option<Symbol>
  {
    if proc.None? then Lookup(syms, name)
    else match Lookup(syms, ScopedKey(name, proc.value))
      case Some(s) => Some(s)
      case None => Lookup(syms, name)
  }

  /** What pVarNames reserves for one name: a word (`DC 0`), or for an
      array a block of its size (`DS n`). */
  datatype Storage = Word(lbl: string) | Block(lbl: string, size: int)

  /** The storage pVarNames prints for a record: a block for an array, a
      word otherwise; None for an array whose size does not read (that run
      crashes in getArraySize). */
  function StorageOf(s: Symbol): (st: Option<Storage>)
    ensures st.Some? ==> st.value.lbl == s.lbl
    ensures st.Some? && st.value.Block? <==> IsArray(s) && ArraySize(s.ty).Some?
    ensures st.None? <==> IsArray(s) && ArraySize(s.ty).None?
  {
    if !IsArray(s) then Some(Word(s.lbl))
    else match ArraySize(s.ty)
      case Some(n) => Some(Block(s.lbl, n))
      case None => None
  }

  /** The two lines printed for a storage: its label, then the reservation. */
  function StorageLines(st: Storage): seq<Instr>
  {
    match st
    case Word(l) => [Line(l), Op("DC", "0")]
    case Block(l, n) => [Line(l), OpNum("DS", "", n)]
  }

  /** For the type texts the cross-reference listing prints, an array of n
      elements reserves a block of n words and every other type one word. */
  lemma StorageOfTypeText(key: string, lbl: string, n: nat, elem: string)
    requires |NatToString(n)| < 64
    ensures StorageOf(Symbol(key, lbl, "array[" + NatToString(n) + "]of" + elem)) == Some(Block(lbl, n))
    ensures StorageOf(Symbol(key, lbl, "integer")) == Some(Word(lbl))
    ensures StorageOf(Symbol(key, lbl, "char")) == Some(Word(lbl))
    ensures StorageOf(Symbol(key, lbl, "boolean")) == Some(Word(lbl))
  {
    ArraySizeOfArrayText(n, elem);
    IsArrayOfTypeText(key, lbl, n, elem, "");
  }

  /** The storage pVarNames declares for the name at token `i`: the record
      of the key scoped by the procedure being declared, if any. */
  function StorageAt(syms: seq<Symbol>, toks: seq<Token>, i: int, proc: Option<string>): Option<Storage>
  {
    match Lookup(syms, DeclKey(StrAt(toks, i), proc))
    case None => None
    case Some(s) => StorageOf(s)
  }

  /** The lines of a sequence of storages, in order. */
  function DeclAll(ss: seq<Storage>): seq<Instr>
  {
    if ss == [] then [] else DeclAll(ss[..|ss| - 1]) + StorageLines(ss[|ss| - 1])
  }

  /** The labels of a sequence of storages, in order. */
  function LabelsOf(ss: seq<Storage>): (r: seq<string>)
    ensures |r| == |ss|
  {
    if ss == [] then [] else LabelsOf(ss[..|ss| - 1]) + [ss[|ss| - 1].lbl]
  }

  lemma SnocTwo<T>(a: seq<T>, b: seq<T>, x: T, y: T)
    ensures a + b + [x] + [y] == a + (b + [x, y])
  {
  }

  /** What a run added to an output that had `a` as a prefix. */
  lemma PrefixRest<T>(a: seq<T>, b: seq<T>) returns (rest: seq<T>)
    requires a <= b
    ensures b == a + rest && rest == b[|a|..]
  {
    rest := b[|a|..];
  }

  lemma AppendAssoc3<T>(a: seq<T>, b: seq<T>, c: seq<T>, d: seq<T>)
    ensures a + b + c + d == a + (b + c + d)
  {
  }

  lemma AppendAssoc<T>(a: seq<T>, b: seq<T>, c: seq<T>)
    ensures a + (b + c) == (a + b) + c
  {
  }

  /** The storage of a first name followed by those of the names after it. */
  lemma DeclJoin(s: Storage, rest: seq<Storage>) returns (all: seq<Storage>)
    ensures all == [s] + rest && all[0] == s && |all| == |rest| + 1
    ensures |rest| >= 1 ==> all[1] == rest[0]
    ensures DeclAll(all) == StorageLines(s) + DeclAll(rest)
    ensures LabelsOf(all) == [s.lbl] + LabelsOf(rest)
  {
    all := [s] + rest;
    DeclAllAppend([s], rest);
    assert [s][..0] == [];
  }

  lemma DeclAllSnoc(ss: seq<Storage>, s: Storage)
    ensures DeclAll(ss + [s]) == DeclAll(ss) + StorageLines(s)
    ensures LabelsOf(ss + [s]) == LabelsOf(ss) + [s.lbl]
  {
    assert (ss + [s])[..|ss|] == ss;
  }

  /** The lines of two sequences of storages printed one after the other. */
  lemma DeclConcat(o: seq<Instr>, a: seq<Storage>, b: seq<Storage>) returns (ab: seq<Storage>)
    ensures ab == a + b && o + DeclAll(a) + DeclAll(b) == o + DeclAll(ab)
  {
    ab := a + b;
    DeclAllAppend(a, b);
    AppendAssoc(o, DeclAll(a), DeclAll(b));
  }

  lemma {:induction false} DeclAllAppend(a: seq<Storage>, b: seq<Storage>)
    ensures DeclAll(a + b) == DeclAll(a) + DeclAll(b)
    ensures LabelsOf(a + b) == LabelsOf(a) + LabelsOf(b)
    decreases |b|
  {
    if b == [] {
      assert a + b == a;
    } else {
      var c, x := b[..|b| - 1], b[|b| - 1];
      assert b == c + [x];
      assert a + b == (a + c) + [x];
      DeclAllAppend(a, c);
      DeclAllSnoc(a + c, x);
      DeclAllSnoc(c, x);
      AppendAssoc(DeclAll(a), DeclAll(c), StorageLines(x));
      AppendAssoc(LabelsOf(a), LabelsOf(c), [x.lbl]);
    }
  }

  // ---------------------------------------------------------------------
  // Procedure entry

  /** The stores of a procedure's entry code: the last parameter first, a POP
      of the next argument between two stores. */
  function Stores(ps: seq<string>): seq<Instr>
    requires ps != []
    decreases |ps|
  {
    [Op("ST", "GR1," + ps[|ps| - 1])] +
    (if |ps| == 1 then [] else [Op("POP", "GR1")] + Stores(ps[..|ps| - 1]))
  }

  /** One turn of the store loop: the store of the top label, and the POP
      of the next argument when more labels remain. */
  lemma StoresStep(ps: seq<string>)
    requires ps != []
    ensures |ps| == 1 ==> Stores(ps) == [Op("ST", "GR1," + ps[0])]
    ensures |ps| > 1 ==>
      Stores(ps) == [Op("ST", "GR1," + ps[|ps| - 1]), Op("POP", "GR1")] + Stores(ps[..|ps| - 1])
  {
  }

  /** The entry code pSubProgram prints for a non-empty parameter stack. */
  function ParamEntry(ps: seq<string>): seq<Instr>
  {
    if ps == [] then [] else [Op("POP", "GR2"), Op("POP", "GR1")] + Stores(ps) + [Op("PUSH", "0,GR2")]
  }

  lemma {:induction false} StoresShape(ps: seq<string>)
    requires ps != []
    ensures |Stores(ps)| == 2 * |ps| - 1
    ensures forall i :: 0 <= i < |ps| ==> Stores(ps)[2 * i] == Op("ST", "GR1," + ps[|ps| - 1 - i])
    ensures forall i :: 0 <= i < |ps| - 1 ==> Stores(ps)[2 * i + 1] == Op("POP", "GR1")
    decreases |ps|
  {
    if |ps| > 1 {
      var rest := ps[..|ps| - 1];
      StoresShape(rest);
      var s := Stores(ps);
      assert s == [Op("ST", "GR1," + ps[|ps| - 1])] + [Op("POP", "GR1")] + Stores(rest);
      forall i | 1 <= i < |ps|
        ensures s[2 * i] == Op("ST", "GR1," + ps[|ps| - 1 - i])
      {
        assert s[2 * i] == Stores(rest)[2 * (i - 1)];
        assert rest[|rest| - 1 - (i - 1)] == ps[|ps| - 1 - i];
      }
      forall i | 1 <= i < |ps| - 1
        ensures s[2 * i + 1] == Op("POP", "GR1")
      {
        assert s[2 * i + 1] == Stores(rest)[2 * (i - 1) + 1];
      }
    }
  }

  /** The entry code takes the return address off the stack into GR2, stores
      the arguments the caller pushed in the parameters from the last to the
      first, and pushes the return address back. */
  lemma ParamEntryShape(ps: seq<string>)
    requires ps != []
    ensures |ParamEntry(ps)| == 2 * |ps| + 2
    ensures ParamEntry(ps)[0] == Op("POP", "GR2") && ParamEntry(ps)[2 * |ps| + 1] == Op("PUSH", "0,GR2")
    ensures forall i :: 0 <= i < |ps| ==>
      ParamEntry(ps)[2 * i + 1] == Op("POP", "GR1") && ParamEntry(ps)[2 * i + 2] == Op("ST", "GR1," + ps[|ps| - 1 - i])
  {
    StoresShape(ps);
    var e := ParamEntry(ps);
    assert e == [Op("POP", "GR2"), Op("POP", "GR1")] + Stores(ps) + [Op("PUSH", "0,GR2")];
    forall i | 0 <= i < |ps|
      ensures e[2 * i + 1] == Op("POP", "GR1") && e[2 * i + 2] == Op("ST", "GR1," + ps[|ps| - 1 - i])
    {
      assert e[2 * i + 2] == Stores(ps)[2 * i];
      if i > 0 {
        assert e[2 * i + 1] == Stores(ps)[2 * (i - 1) + 1];
      }
    }
  }

  /** The line pSubProgram prints for the procedure's own record: its label,
      and "(null)", as the C library prints a NULL string, when no record
      has the procedure's name as its key. */
  function ProcLabel(syms: seq<Symbol>, name: string): (line: string)
    ensures Lookup(syms, name).Some? ==> line == Lookup(syms, name).value.lbl
    ensures Lookup(syms, name).None? ==> line == "(null)"
  {
    match Lookup(syms, name)
    case Some(s) => s.lbl
    case None => "(null)"
  }

  /** The first line printed: `%%name START L%04d` with the first label. */
  function StartLine(name: string, l: nat): string
  {
    "%%" + name + "\tSTART\t" + Label4(l)
  }

  // ---------------------------------------------------------------------
  // The generator

  class Generator {
    const toks: seq<Token>
    /** The records parseSymbols split the cross-reference text into. */
    const symbols: seq<Symbol>
    var pos: nat
    /** The run has crashed (a NULL dereference, reading past the list). */
    var halted: bool
    var procName: Option<string>
    /** parameter_stack: the labels of the formal parameters, pushed in order. */
    var params: seq<string>
    /** getLabelNum's static counter. */
    var labelCounter: nat
    /** The lines printed to the output file. */
    var out: seq<Instr>

    ghost predicate Valid()
      reads this`pos, this`halted, this`labelCounter
    {
      |toks| > 0 && toks[|toks| - 1].id == 0 && pos <= |toks| && (pos == |toks| ==> halted) &&
      labelCounter >= 1
    }

    constructor (toks: seq<Token>, symbols: seq<Symbol>)
      requires |toks| > 0 && toks[|toks| - 1].id == 0
      ensures Valid() && !halted && pos == 0 && this.toks == toks && this.symbols == symbols
      ensures procName.None? && params == [] && labelCounter == 1 && out == []
    {
      this.toks := toks;
      this.symbols := symbols;
      pos := 0;
      halted := false;
      procName := None;
      params := [];
      labelCounter := 1;
      out := [];
    }

    method Consume()
      requires Valid() && !halted
      modifies this`pos, this`halted
      ensures Valid() && pos == old(pos) + 1 && (halted <==> pos == |toks|)
      ensures IdAt(toks, old(pos)) != 0 ==> !halted
    {
      pos := pos + 1;
      halted := pos == |toks|;
    }

    /** println of one line. */
    method Emit(i: Instr)
      modifies this`out
      ensures out == old(out) + [i]
    {
      out := out + [i];
    }

    /** println of several lines in order. */
    method EmitAll(code: seq<Instr>)
      modifies this`out
      ensures out == old(out) + code
    {
      out := out + code;
    }

    /** getLabelNum: the counter's value, then the counter moves on. */
    method GetLabelNum() returns (l: nat)
      requires Valid()
      modifies this`labelCounter
      ensures Valid() && l == old(labelCounter) && labelCounter == l + 1
    {
      l := labelCounter;
      labelCounter := labelCounter + 1;
    }

    method GenStoreBoolean()
      requires Valid()
      modifies this`labelCounter, this`out
      ensures Valid() && labelCounter == old(labelCounter) + 2
      ensures out == old(out) + StoreBoolean(old(labelCounter), old(labelCounter) + 1)
    {
      var t := GetLabelNum();
      var e := GetLabelNum();
      EmitAll(StoreBoolean(t, e));
    }

    /** The record pVar looks up for the name at the cursor. */
    method LookupVar() returns (sym: Option<Symbol>)
      requires Valid() && !halted
      ensures sym == VarSymbol(symbols, StrAt(toks, pos), procName)
    {
      var name := toks[pos].str;
      if procName.Some? {
        sym := GetSymbol(symbols, ScopedKey(name, procName.value));
        if sym.None? {
          sym := GetSymbol(symbols, name);
        }
      } else {
        sym := GetSymbol(symbols, name);
      }
    }

    /** The index `[ e ]` of pVar for the record `sym`: the index value, the
        range check against the size in the record's type text, and the
        element's address in GR1. */
    method ParseIndex(sym: Option<Symbol>) returns (r: int, ghost index: seq<Instr>)
      requires Valid() && !halted && IdAt(toks, pos) == TLSQPAREN
      modifies this`pos, this`halted, this`labelCounter, this`out
      decreases |toks| - pos, 1
      ensures Valid() && old(pos) < pos && old(labelCounter) <= labelCounter && old(out) <= out
      ensures (r == NORMAL || r == ERROR) && (halted ==> r == ERROR)
      ensures r == NORMAL ==>
        sym.Some? && ArraySize(sym.value.ty).Some? && IdAt(toks, pos - 1) == TRSQPAREN &&
        out == old(out) + index + IndexCheck(ArraySize(sym.value.ty).value, sym.value.lbl)
    {
      index := [];
      Consume();
      var e, first, related, head := ParseExpression();
      if halted || e == ERROR {
        return ERROR, index;
      }
      index := out[|old(out)|..];
      EmitAll([Op("CPA", "GR1,GR0"), Op("JMI", "EROV")]);
      if sym.None? {
        halted := true;   // getArraySize(NULL)
        return ERROR, index;
      }
      var size := GetArraySize(sym.value.ty);
      if size.None? {
        halted := true;   // strchr found no '[' or the loop runs off the type text
        return ERROR, index;
      }
      EmitAll([OpNum("LAD", "GR2,", size.value - 1), Op("CPA", "GR1,GR2"),
               Op("JPL", "EROV"), Op("LAD", "GR1," + sym.value.lbl + ",GR1")]);
      if IdAt(toks, pos) != TRSQPAREN {
        return ERROR, index;   // expected ']'
      }
      Consume();
      r := NORMAL;
    }

    /** pVar: a variable, its value loaded into GR1, or for an indexed array
        element its address after the range check. pVar yields NORMAL (the
        integer kind) or ERROR, whatever the variable's type; `sym` is the
        record it uses. */
    method ParseVar() returns (r: int, ghost sym: Option<Symbol>, ghost index: seq<Instr>)
      requires Valid() && !halted
      modifies this`pos, this`halted, this`labelCounter, this`out
      decreases |toks| - pos, 2
      ensures Valid() && old(pos) <= pos && old(labelCounter) <= labelCounter && old(out) <= out
      ensures (r == NORMAL || r == ERROR) && (halted ==> r == ERROR)
      ensures sym == VarSymbol(symbols, StrAt(toks, old(pos)), procName)
      ensures procName.Some? && sym.None? ==> r == ERROR && !halted && pos == old(pos) && out == old(out)
      ensures !halted && IdAt(toks, old(pos) + 1) != TLSQPAREN && !(procName.Some? && sym.None?) ==>
        pos == old(pos) + 1 && (r == NORMAL <==> sym.Some?) &&
        out == old(out) + (if sym.Some? then [Op("LD", "GR1," + sym.value.lbl)] else [])
      ensures r == NORMAL && IdAt(toks, old(pos) + 1) == TLSQPAREN ==>
        sym.Some? && ArraySize(sym.value.ty).Some? && IdAt(toks, pos - 1) == TRSQPAREN &&
        out == old(out) + index + IndexCheck(ArraySize(sym.value.ty).value, sym.value.lbl)
    {
      index := [];
      var s := LookupVar();
      sym := s;
      if procName.Some? && s.None? {
        return ERROR, sym, index;   // undefined variable
      }
      Consume();
      if halted {
        return ERROR, sym, index;
      }
      if IdAt(toks, pos) == TLSQPAREN {
        r, index := ParseIndex(s);
      } else {
        if s.None? {
          return ERROR, sym, index;   // undefined variable
        }
        Emit(Op("LD", "GR1," + s.value.lbl));
        r := NORMAL;
      }
    }

    /** `integer ( e )`, `boolean ( e )`, `char ( e )` in pFactor. The
        integer case refuses an opening parenthesis and takes any other token
        in its place, as written. */
    /** The conversion pFactor prints after the operand of a cast to the
        type keyword `target`, the operand being of kind `inner`; ERROR when
        the operand has no kind. */
    method EmitCast(target: int, inner: int) returns (r: int)
      requires Valid() && IsStdType(target)
      modifies this`labelCounter, this`out
      ensures Valid() && old(labelCounter) <= labelCounter
      ensures r == ERROR <==> CastCode(target, inner, old(labelCounter)).None?
      ensures r == ERROR ==> out == old(out)
      ensures r != ERROR ==> (r == DecodeIdToKind(target, false) &&
        out == old(out) + CastCode(target, inner, old(labelCounter)).value)
    {
      if target == TINTEGER {
        if inner == TPBOOL {
          GenStoreBoolean();
        } else if inner != TPINT && inner != TPCHAR {
          return ERROR;   // expected integer
        }
        r := TPINT;
      } else if target == TBOOLEAN {
        if inner == TPINT || inner == TPCHAR {
          GenStoreBoolean();
        } else if inner != TPBOOL {
          return ERROR;   // expected boolean
        }
        r := TPBOOL;
      } else {
        if inner == TPINT {
          EmitAll([Op("LAD", "#007F"), Op("AND", "GR1,GR2"), Op("LAD", "GR2,0")]);
        } else if inner == TPBOOL {
          GenStoreBoolean();
        } else if inner != TPCHAR {
          return ERROR;   // expected char
        }
        r := TPCHAR;
      }
    }

    method ParseCast() returns (r: int, inner: int, ghost operand: seq<Instr>, ghost at: nat)
      requires Valid() && !halted && IsStdType(IdAt(toks, pos))
      modifies this`pos, this`halted, this`labelCounter, this`out
      decreases |toks| - pos, 2
      ensures Valid() && old(pos) < pos && old(labelCounter) <= labelCounter && old(out) <= out
      ensures IsKindOrError(r) && (halted ==> r == ERROR)
      ensures IdAt(toks, old(pos)) == TINTEGER && IdAt(toks, old(pos) + 1) == TLPAREN ==>
        r == ERROR && !halted && pos == old(pos) + 1 && out == old(out)
      ensures IdAt(toks, old(pos)) != TINTEGER && IdAt(toks, old(pos) + 1) != TLPAREN ==>
        r == ERROR && !halted && pos == old(pos) + 1 && out == old(out)
      ensures r != ERROR ==>
        r == DecodeIdToKind(IdAt(toks, old(pos)), false) && IdAt(toks, pos - 1) == TRPAREN &&
        CastCode(IdAt(toks, old(pos)), inner, at).Some? &&
        out == old(out) + operand + CastCode(IdAt(toks, old(pos)), inner, at).value
    {
      inner, operand, at := ERROR, [], labelCounter;
      var target := IdAt(toks, pos);
      Consume();
      if target == TINTEGER {
        if IdAt(toks, pos) == TLPAREN {
          return ERROR, inner, operand, at;   // the test is inverted in the source
        }
      } else if IdAt(toks, pos) != TLPAREN {
        return ERROR, inner, operand, at;
      }
      Consume();
      if halted {
        return ERROR, inner, operand, at;
      }
      ghost var start := out;
      ghost var first, related, head;
      inner, first, related, head := ParseExpression();
      if halted {
        return ERROR, inner, operand, at;
      }
      operand := PrefixRest(start, out);
      at := labelCounter;
      r := EmitCast(target, inner);
      if r == ERROR {
        return ERROR, inner, operand, at;
      }
      if IdAt(toks, pos) != TRPAREN {
        return ERROR, inner, operand, at;
      }
      Consume();
    }

    /** pFactor. The checks against TPRERROR in the source never fire (no
        production yields it) and are left out. */
    method ParseFactor() returns (r: int)
      requires Valid() && !halted
      modifies this`pos, this`halted, this`labelCounter, this`out
      decreases |toks| - pos, 3
      ensures Valid() && old(pos) <= pos && old(labelCounter) <= labelCounter && old(out) <= out
      ensures IsKindOrError(r) && (halted ==> r == ERROR)
      ensures !StartsFactor(IdAt(toks, old(pos))) ==> r == ERROR && !halted && pos == old(pos) && out == old(out)
      ensures IdAt(toks, old(pos)) == TNAME ==> r == TPINT || r == ERROR
      ensures IdAt(toks, old(pos)) == TNUMBER ==> (r == TPINT && !halted && pos == old(pos) + 1 &&
        out == old(out) + [OpNum("LAD", "GR1,", toks[old(pos)].num)])
      ensures IdAt(toks, old(pos)) == TFALSE ==> (r == TPBOOL && !halted && pos == old(pos) + 1 &&
        out == old(out) + [Op("LAD", "GR1,0")])
      ensures IdAt(toks, old(pos)) == TTRUE ==> (r == TPBOOL && !halted && pos == old(pos) + 1 &&
        out == old(out) + [Op("LAD", "GR1,1")])
      ensures IdAt(toks, old(pos)) == TSTRING ==> (r == TPCHAR && !halted && pos == old(pos) + 1 &&
        out == old(out) + [Op("LAD", "GR1," + toks[old(pos)].str)])
      ensures IdAt(toks, old(pos)) == TNOT && !halted ==> |out| > |old(out)| && out[|out| - 1] == Op("XOR", "GR1,GR1")
      ensures IsStdType(IdAt(toks, old(pos))) && r != ERROR ==> r == DecodeIdToKind(IdAt(toks, old(pos)), false)
    {
      var id := IdAt(toks, pos);
      if id == TNAME {
        ghost var sym, index;
        r, sym, index := ParseVar();
      } else if id == TNUMBER {
        Emit(OpNum("LAD", "GR1,", toks[pos].num));
        Consume();
        r := TPINT;
      } else if id == TFALSE {
        Emit(Op("LAD", "GR1,0"));
        Consume();
        r := TPBOOL;
      } else if id == TTRUE {
        Emit(Op("LAD", "GR1,1"));
        Consume();
        r := TPBOOL;
      } else if id == TSTRING {
        Emit(Op("LAD", "GR1," + toks[pos].str));
        Consume();
        r := TPCHAR;
      } else if id == TLPAREN {
        Consume();
        ghost var first, related, head;
        r, first, related, head := ParseExpression();
        if halted {
          return ERROR;
        }
        if IdAt(toks, pos) != TRPAREN {
          return ERROR;   // expected ')'
        }
        Consume();
      } else if id == TNOT {
        Consume();
        r := ParseFactor();
        if halted {
          return ERROR;
        }
        Emit(Op("XOR", "GR1,GR1"));
      } else if IsStdType(id) {
        var inner;
        ghost var operand, at;
        r, inner, operand, at := ParseCast();
      } else {
        r := ERROR;   // expected factor
      }
    }

    /** pTerm: factors joined by `*`, `div` and `and`; one overflow check
        closes the term. */
    method ParseTerm() returns (r: int, ghost first: int, ghost ops: seq<int>, ghost completed: bool)
      requires Valid() && !halted
      modifies this`pos, this`halted, this`labelCounter, this`out
      decreases |toks| - pos, 4
      ensures Valid() && old(pos) <= pos && old(labelCounter) <= labelCounter && old(out) <= out
      ensures IsKindOrError(r) && (halted ==> r == ERROR && !completed)
      ensures forall i :: 0 <= i < |ops| ==> IsMulOp(ops[i])
      ensures !completed ==> r == ERROR
      ensures completed ==> (r == (if ops == [] then first else MulKind(ops[|ops| - 1])) &&
        !IsMulOp(IdAt(toks, pos)) && |out| > |old(out)| && out[|out| - 1] == Op("JOV", "EOVF"))
    {
      ops, completed := [], false;
      r := ParseFactor();
      first := r;
      if halted {
        return ERROR, first, ops, completed;
      }
      ghost var p0, lc0, o0 := old(pos), old(labelCounter), old(out);
      while IsMulOp(IdAt(toks, pos))
        invariant Valid() && !halted && p0 <= pos && lc0 <= labelCounter && o0 <= out
        invariant IsKindOrError(r) && r == (if ops == [] then first else MulKind(ops[|ops| - 1]))
        invariant forall i :: 0 <= i < |ops| ==> IsMulOp(ops[i])
        decreases |toks| - pos
      {
        var opr := IdAt(toks, pos);
        r := ParseMulStep();
        if halted || r == ERROR {
          return ERROR, first, ops, completed;
        }
        ops := ops + [opr];
      }
      Emit(Op("JOV", "EOVF"));
      completed := true;
    }

    /** pSimpleExpression: an optional sign, then terms joined by `+`, `-`
        and `or`. A leading minus prints `LAD GR2,1`, `XOR GR1,GR1`,
        `ADDA GR1,GR2` after the first term, as written. */
    method ParseSimpleExpression() returns (r: int, ghost first: int, ghost ops: seq<int>, ghost head: seq<Instr>)
      requires Valid() && !halted
      modifies this`pos, this`halted, this`labelCounter, this`out
      decreases |toks| - pos, 5
      ensures Valid() && old(pos) <= pos && old(labelCounter) <= labelCounter && old(out) <= out
      ensures IsKindOrError(r) && (halted ==> r == ERROR)
      ensures forall i :: 0 <= i < |ops| ==> IsAddOp(ops[i])
      ensures !halted ==> r == (if ops == [] then first else AddKind(ops[|ops| - 1])) && !IsAddOp(IdAt(toks, pos))
      ensures !halted && IdAt(toks, old(pos)) == TMINUS ==>
        old(out) + head + [Op("LAD", "GR2,1"), Op("XOR", "GR1,GR1"), Op("ADDA", "GR1,GR2")] <= out
    {
      ops, head := [], [];
      ghost var ff, fops, done;
      if IdAt(toks, pos) == TMINUS {
        Consume();
        r, ff, fops, done := ParseTerm();
        first := r;
        if halted {
          return ERROR, first, ops, head;
        }
        head := out[|old(out)|..];
        EmitAll([Op("LAD", "GR2,1"), Op("XOR", "GR1,GR1"), Op("ADDA", "GR1,GR2")]);
      } else {
        if IdAt(toks, pos) == TPLUS {
          Consume();
        }
        if halted {
          return ERROR, first, ops, head;
        }
        r, ff, fops, done := ParseTerm();
        first := r;
        if halted {
          return ERROR, first, ops, head;
        }
      }
      ghost var p0, lc0, o0, afterFirst := old(pos), old(labelCounter), old(out), out;
      while IsAddOp(IdAt(toks, pos))
        invariant Valid() && !halted && p0 <= pos && lc0 <= labelCounter && o0 <= afterFirst <= out
        invariant IsKindOrError(r) && r == (if ops == [] then first else AddKind(ops[|ops| - 1]))
        invariant forall i :: 0 <= i < |ops| ==> IsAddOp(ops[i])
        decreases |toks| - pos
      {
        var opr := IdAt(toks, pos);
        r := ParseAddStep();
        if halted {
          return ERROR, first, ops, head;
        }
        ops := ops + [opr];
      }
    }

    /** One turn of pTerm's loop: the left operand pushed, the operator
        consumed, the factor, then the operator's code. A factor that fails
        ends pTerm with ERROR. */
    method ParseMulStep() returns (r: int)
      requires Valid() && !halted && IsMulOp(IdAt(toks, pos))
      modifies this`pos, this`halted, this`labelCounter, this`out
      decreases |toks| - pos, 3
      ensures Valid() && old(pos) < pos && old(labelCounter) <= labelCounter && old(out) <= out
      ensures halted ==> r == ERROR
      ensures r == ERROR || r == MulKind(IdAt(toks, old(pos)))
      ensures r != ERROR ==> |out| >= 2 && out[|out| - 1] == MulCode(IdAt(toks, old(pos)))[|MulCode(IdAt(toks, old(pos)))| - 1]
    {
      Emit(Op("PUSH", "0,GR1"));
      var opr := IdAt(toks, pos);
      Consume();
      var f := ParseFactor();
      if halted || f == ERROR {
        return ERROR;
      }
      Emit(Op("POP", "GR2"));
      EmitAll(MulCode(opr));
      r := MulKind(opr);
    }

    /** One turn of pSimpleExpression's loop, as ParseMulStep for pTerm; a
        term that fails is not noticed (pTerm never returns TPRERROR). */
    method ParseAddStep() returns (r: int)
      requires Valid() && !halted && IsAddOp(IdAt(toks, pos))
      modifies this`pos, this`halted, this`labelCounter, this`out
      decreases |toks| - pos, 4
      ensures Valid() && old(pos) < pos && old(labelCounter) <= labelCounter && old(out) <= out
      ensures halted ==> r == ERROR
      ensures !halted ==> r == AddKind(IdAt(toks, old(pos)))
    {
      Emit(Op("PUSH", "0,GR1"));
      var opr := IdAt(toks, pos);
      Consume();
      ghost var tf, tops, tdone;
      var t;
      t, tf, tops, tdone := ParseTerm();
      if halted {
        return ERROR;
      }
      Emit(Op("POP", "GR2"));
      EmitAll(AddCode(opr));
      r := AddKind(opr);
    }

    /** One relation of pExpression: two fresh labels, the operator, the right
        operand, then the comparison block. */
    method GenRelation() returns (ghost rhs: seq<Instr>)
      requires Valid() && !halted && IsRelOp(IdAt(toks, pos))
      modifies this`pos, this`halted, this`labelCounter, this`out
      decreases |toks| - pos, 6
      ensures Valid() && old(pos) < pos && old(labelCounter) + 2 <= labelCounter && old(out) <= out
      ensures !halted ==>
        out == old(out) + rhs + RelationBlock(IdAt(toks, old(pos)), old(labelCounter), old(labelCounter) + 1)
    {
      var l1 := GetLabelNum();
      var l2 := GetLabelNum();
      var opr := IdAt(toks, pos);
      Consume();
      rhs := [];
      ghost var o0 := out;
      var s, sf, sops, shead := ParseSimpleExpression();   // its kind is not looked at
      if halted {
        return;
      }
      rhs := PrefixRest(o0, out);
      ghost var o1 := out;
      var compare := [Op("POP", "GR2"), Op("CPA", "GR2,GR1")];
      EmitAll(compare);
      EmitRelJumps(opr, l1);
      var tail := [Op("LAD", "GR1,0"), Jump("JUMP", l2), Def4(l1), Op("LAD", "GR1,1"), Def4(l2)];
      EmitAll(tail);
      AppendAssoc3(o1, compare, RelJumps(opr, l1), tail);
      AppendAssoc(compare, RelJumps(opr, l1), tail);
    }

    /** The conditional jumps pExpression prints for a relational operator. */
    method EmitRelJumps(opr: int, l1: nat)
      requires IsRelOp(opr)
      modifies this`out
      ensures out == old(out) + RelJumps(opr, l1)
    {
      if opr == TEQUAL {
        Emit(Jump("JZE", l1));
      } else if opr == TNOTEQ {
        Emit(Jump("JNZ", l1));
      } else if opr == TLE {
        Emit(Jump("JMI", l1));
      } else if opr == TLEEQ {
        EmitAll([Jump("JMI", l1), Jump("JZE", l1)]);
      } else if opr == TGR {
        Emit(Jump("JPL", l1));
      } else {
        EmitAll([Jump("JPL", l1), Jump("JZE", l1)]);
      }
    }

    /** pExpression: a simple expression, always followed by `PUSH 0,GR1`,
        then any number of relations; a relation makes the kind boolean. */
    method ParseExpression() returns (r: int, ghost first: int, ghost related: bool, ghost head: seq<Instr>)
      requires Valid() && !halted
      modifies this`pos, this`halted, this`labelCounter, this`out
      decreases |toks| - pos, 7
      ensures Valid() && old(pos) <= pos && old(labelCounter) <= labelCounter && old(out) <= out
      ensures IsKindOrError(r) && (halted ==> r == ERROR)
      ensures !halted ==> r == (if related then TPBOOL else first) && !IsRelOp(IdAt(toks, pos))
      ensures !halted ==> old(out) + head + [Op("PUSH", "0,GR1")] <= out
    {
      related, head := false, [];
      ghost var sf, ops, shead;
      r, sf, ops, shead := ParseSimpleExpression();
      first := r;
      if halted {
        return ERROR, first, related, head;
      }
      head := out[|old(out)|..];
      Emit(Op("PUSH", "0,GR1"));
      ghost var afterPush := out;
      while IsRelOp(IdAt(toks, pos))
        invariant Valid() && !halted && old(pos) <= pos && old(labelCounter) <= labelCounter
        invariant old(out) <= afterPush <= out
        invariant IsKindOrError(r) && r == (if related then TPBOOL else first)
        decreases |toks| - pos
      {
        r := TPBOOL;
        related := true;
        ghost var rhs := GenRelation();
        if halted {
          return ERROR, first, related, head;
        }
      }
    }

    /** pAssignment. The left side goes through pVar, which loads the
        variable's value (LD) rather than its address, and the store goes to
        the address held in GR2, as written. */
    method ParseAssignment() returns (r: int, ghost lhs: seq<Instr>, ghost rhs: seq<Instr>)
      requires Valid() && !halted
      modifies this`pos, this`halted, this`labelCounter, this`out
      ensures Valid() && old(pos) <= pos && old(labelCounter) <= labelCounter && old(out) <= out
      ensures (r == NORMAL || r == ERROR) && (halted ==> r == ERROR)
      ensures r == NORMAL ==>
        out == old(out) + lhs + [Op("PUSH", "0,GR1")] + rhs + [Op("POP", "GR2"), Op("ST", "GR1,0,GR2")]
      ensures r == NORMAL && IdAt(toks, old(pos) + 1) != TLSQPAREN ==>
        VarSymbol(symbols, StrAt(toks, old(pos)), procName).Some? &&
        lhs == [Op("LD", "GR1," + VarSymbol(symbols, StrAt(toks, old(pos)), procName).value.lbl)]
    {
      lhs, rhs := [], [];
      ghost var sym, index;
      var v;
      v, sym, index := ParseVar();
      if halted || v == ERROR {
        return ERROR, lhs, rhs;
      }
      lhs := PrefixRest(old(out), out);
      Emit(Op("PUSH", "0,GR1"));
      ghost var mid := out;
      if IdAt(toks, pos) != TASSIGN {
        return ERROR, lhs, rhs;   // expected ':='
      }
      Consume();
      ghost var first, related, head;
      var e;
      e, first, related, head := ParseExpression();
      if halted || e == ERROR {
        return ERROR, lhs, rhs;
      }
      rhs := PrefixRest(mid, out);
      EmitAll([Op("POP", "GR2"), Op("ST", "GR1,0,GR2")]);
      r := NORMAL;
    }

    /** pCondition: the condition, `CPA GR1,GR0` and a jump past the then
        branch, the branch, and with `else` a jump past the else branch. The
        jumps name L%04d labels while genLabel prints L%03d (LabelTextsMeet). */
    method ParseCondition() returns (r: int, ghost cond: seq<Instr>, ghost thenPart: seq<Instr>,
                                     ghost elsePart: seq<Instr>, l1: nat, l2: nat, hasElse: bool)
      requires Valid() && !halted
      modifies this`pos, this`halted, this`labelCounter, this`out
      decreases |toks| - pos, 9
      ensures Valid() && old(pos) <= pos && old(labelCounter) <= labelCounter && old(out) <= out
      ensures (r == NORMAL || r == ERROR) && (halted ==> r == ERROR)
      ensures IdAt(toks, old(pos)) != TIF ==> r == ERROR && !halted && pos == old(pos) && out == old(out)
      ensures r == NORMAL ==> (IdAt(toks, old(pos)) == TIF && l1 < l2 &&
        out == old(out) + cond + [Op("CPA", "GR1,GR0"), Jump("JZE", l1)] + thenPart +
          (if hasElse then [Jump("JUMP", l2), Def3(l1)] + elsePart + [Def3(l2)] else [Def3(l1)]))
    {
      cond, thenPart, elsePart, l1, l2, hasElse := [], [], [], 0, 1, false;
      if IdAt(toks, pos) != TIF {
        return ERROR, cond, thenPart, elsePart, l1, l2, hasElse;
      }
      Consume();
      ghost var o0 := out;
      ghost var first, related, head;
      var e;
      e, first, related, head := ParseExpression();
      if halted || e == ERROR {
        return ERROR, cond, thenPart, elsePart, l1, l2, hasElse;
      }
      cond := PrefixRest(o0, out);
      l1 := GetLabelNum();
      EmitAll([Op("CPA", "GR1,GR0"), Jump("JZE", l1)]);
      ghost var o2 := out;
      if IdAt(toks, pos) != TTHEN {
        return ERROR, cond, thenPart, elsePart, l1, l2, hasElse;   // expected 'then'
      }
      Consume();
      if halted {
        return ERROR, cond, thenPart, elsePart, l1, l2, hasElse;
      }
      r, thenPart, elsePart, l2, hasElse := ParseBranches(l1);
      if r == NORMAL {
        AppendAssoc(o2, thenPart, if hasElse then [Jump("JUMP", l2), Def3(l1)] + elsePart + [Def3(l2)] else [Def3(l1)]);
      }
    }

    /** The part of pCondition after `then`: the then-statement, and either
        an else-statement between a jump to a fresh label l2 and the label
        l1, closed by l2; or only the label l1. */
    method ParseBranches(l1: nat) returns (r: int, ghost thenPart: seq<Instr>, ghost elsePart: seq<Instr>,
                                           l2: nat, hasElse: bool)
      requires Valid() && !halted && l1 < labelCounter
      modifies this`pos, this`halted, this`labelCounter, this`out
      decreases |toks| - pos, 12
      ensures Valid() && old(pos) <= pos && old(labelCounter) <= labelCounter && old(out) <= out
      ensures (r == NORMAL || r == ERROR) && (halted ==> r == ERROR)
      ensures r == NORMAL ==> (l1 < l2 &&
        out == old(out) + thenPart +
          (if hasElse then [Jump("JUMP", l2), Def3(l1)] + elsePart + [Def3(l2)] else [Def3(l1)]))
    {
      thenPart, elsePart, l2, hasElse := [], [], l1 + 1, false;
      ghost var o2 := out;
      var s := ParseStatement();
      if halted || s == ERROR {
        return ERROR, thenPart, elsePart, l2, hasElse;
      }
      thenPart := PrefixRest(o2, out);
      ghost var o3 := out;
      if IdAt(toks, pos) == TELSE {
        hasElse := true;
        l2 := GetLabelNum();
        EmitAll([Jump("JUMP", l2), Def3(l1)]);
        ghost var o4 := out;
        Consume();
        s := ParseStatement();
        if halted || s == ERROR {
          return ERROR, thenPart, elsePart, l2, hasElse;
        }
        elsePart := PrefixRest(o4, out);
        Emit(Def3(l2));
        AppendAssoc3(o3, [Jump("JUMP", l2), Def3(l1)], elsePart, [Def3(l2)]);
      } else {
        Emit(Def3(l1));
      }
      r := NORMAL;
    }

    /** pIteration: the loop label, the condition, a conditional jump to the
        second label, the body and a jump back. No line defines the second
        label, as written. The results of the condition and the body are not
        looked at. */
    method ParseIteration() returns (r: int, ghost cond: seq<Instr>, ghost body: seq<Instr>)
      requires Valid() && !halted
      modifies this`pos, this`halted, this`labelCounter, this`out
      decreases |toks| - pos, 9
      ensures Valid() && old(pos) < pos && old(labelCounter) + 2 <= labelCounter && old(out) <= out
      ensures (r == NORMAL || r == ERROR) && (halted ==> r == ERROR)
      ensures r == NORMAL ==>
        out == old(out) + [Def3(old(labelCounter))] + cond +
          [Op("CPA", "GR1,GR0"), Jump("JZE", old(labelCounter) + 1)] + body +
          [Jump("JUMP", old(labelCounter))]
    {
      cond, body := [], [];
      Consume();
      var l1 := GetLabelNum();
      var l2 := GetLabelNum();
      if halted {
        return ERROR, cond, body;
      }
      Emit(Def3(l1));
      ghost var o1 := out;
      var e, first, related, head := ParseExpression();
      if halted {
        return ERROR, cond, body;
      }
      cond := PrefixRest(o1, out);
      EmitAll([Op("CPA", "GR1,GR0"), Jump("JZE", l2)]);
      ghost var o2 := out;
      if IdAt(toks, pos) != TDO {
        return ERROR, cond, body;   // expected 'do'
      }
      Consume();
      var s := ParseStatement();
      if halted {
        return ERROR, cond, body;
      }
      body := PrefixRest(o2, out);
      Emit(Jump("JUMP", l1));
      r := NORMAL;
    }

    /** pCall: only the keyword `call` is consumed; nothing is printed. */
    method ParseCall() returns (r: int)
      requires Valid() && !halted
      modifies this`pos, this`halted
      ensures Valid() && !halted
      ensures IdAt(toks, old(pos)) == TCALL ==> r == NORMAL && pos == old(pos) + 1
      ensures IdAt(toks, old(pos)) != TCALL ==> r == ERROR && pos == old(pos)
    {
      if IdAt(toks, pos) != TCALL {
        return ERROR;
      }
      Consume();
      r := NORMAL;
    }

    method GenRead(kind: int)
      modifies this`out
      ensures out == old(out) + ReadCall(kind)
    {
      if kind == TPINT {
        Emit(Op("CALL", "READINT"));
      } else if kind == TPCHAR {
        Emit(Op("CALL", "READCHAR"));
      } else {
        out := out + [];   // only an error message on the terminal
      }
    }

    method GenWrite(kind: int)
      modifies this`out
      ensures out == old(out) + WriteCall(kind)
    {
      if kind == TPINT {
        Emit(Op("CALL", "WRITEINT"));
      } else if kind == TPBOOL {
        Emit(Op("CALL", "WRITEBOOL"));
      } else if kind == TPCHAR {
        Emit(Op("CALL", "WRITECHAR"));
      } else {
        out := out + [];   // only an error message on the terminal
      }
    }

    /** One variable of an input statement: pVar, the readability test and
        the read call, and READLINE after each variable of `readln`. Since
        pVar yields the integer kind for every variable, every variable is
        read with READINT. */
    method ReadVariable(isReadln: bool) returns (r: int, kind: int)
      requires Valid() && !halted
      modifies this`pos, this`halted, this`labelCounter, this`out
      ensures Valid() && old(pos) <= pos && old(labelCounter) <= labelCounter && old(out) <= out
      ensures (r == NORMAL || r == ERROR) && (halted ==> r == ERROR)
      ensures r == NORMAL ==> (kind == TPINT && |out| > |old(out)| &&
        out[|out| - 1] == Op("CALL", if isReadln then "READLINE" else "READINT"))
    {
      ghost var sym, index;
      kind, sym, index := ParseVar();
      if halted {
        return ERROR, kind;
      }
      if !CanRead(kind) {
        return ERROR, kind;   // expected integer or char
      }
      GenRead(kind);
      if isReadln {
        Emit(Op("CALL", "READLINE"));
      }
      r := NORMAL;
    }

    /** pInput: `read` or `readln`, optionally with a parenthesised list of
        variables. */
    method ParseInput() returns (r: int, ghost kinds: seq<int>)
      requires Valid() && !halted
      modifies this`pos, this`halted, this`labelCounter, this`out
      ensures Valid() && old(pos) < pos && old(labelCounter) <= labelCounter && old(out) <= out
      ensures (r == NORMAL || r == ERROR) && (halted ==> r == ERROR)
      ensures forall i :: 0 <= i < |kinds| ==> kinds[i] == TPINT
      ensures !halted && IdAt(toks, old(pos) + 1) != TLPAREN ==> (r == NORMAL && pos == old(pos) + 1 &&
        out == old(out) + (if IdAt(toks, old(pos)) == TREADLN then [Op("CALL", "READLINE")] else []))
      ensures r == NORMAL && IdAt(toks, old(pos) + 1) == TLPAREN ==>
        |kinds| >= 1 && IdAt(toks, pos - 1) == TRPAREN && |out| > |old(out)| &&
        out[|out| - 1] == Op("CALL", if IdAt(toks, old(pos)) == TREADLN then "READLINE" else "READINT")
    {
      kinds := [];
      var isReadln := IdAt(toks, pos) == TREADLN;
      Consume();
      if halted {
        return ERROR, kinds;
      }
      if IdAt(toks, pos) != TLPAREN {
        if isReadln {
          Emit(Op("CALL", "READLINE"));
        }
        return NORMAL, kinds;
      }
      Consume();
      var k;
      r, k := ReadVariable(isReadln);
      if r == ERROR {
        return ERROR, kinds;
      }
      kinds := [k];
      while IdAt(toks, pos) == TCOMMA
        invariant Valid() && !halted && old(pos) < pos && old(labelCounter) <= labelCounter && old(out) <= out
        invariant |kinds| >= 1 && forall i :: 0 <= i < |kinds| ==> kinds[i] == TPINT
        invariant |out| > |old(out)| &&
          out[|out| - 1] == Op("CALL", if isReadln then "READLINE" else "READINT")
        decreases |toks| - pos
      {
        Consume();
        r, k := ReadVariable(isReadln);
        if r == ERROR {
          return ERROR, kinds;
        }
        kinds := kinds + [k];
      }
      if IdAt(toks, pos) != TRPAREN {
        return ERROR, kinds;   // expected ')'
      }
      Consume();
      r := NORMAL;
    }

    /** pOutputFormat: a string literal, or an expression with an optional
        `: width`. The result is NORMAL whatever the expression did. */
    method ParseOutputFormat() returns (r: int, ghost value: seq<Instr>, kind: int, width: Option<int>)
      requires Valid() && !halted
      modifies this`pos, this`halted, this`labelCounter, this`out
      ensures Valid() && old(pos) <= pos && old(labelCounter) <= labelCounter && old(out) <= out
      ensures (r == NORMAL || r == ERROR) && (halted <==> r == ERROR)
      ensures IdAt(toks, old(pos)) == TSTRING ==> (r == NORMAL && pos == old(pos) + 1 &&
        out == old(out) + StringWrite(toks[old(pos)].str))
      ensures r == NORMAL && IdAt(toks, old(pos)) != TSTRING ==>
        out == old(out) + value +
          (if width.Some? then [OpNum("LAD", "GR2,", width.value)] else []) +
          WriteCall(kind)
    {
      value, kind, width := [], ERROR, None;
      if IdAt(toks, pos) == TSTRING {
        EmitAll(StringWrite(toks[pos].str));
        Consume();
        return NORMAL, value, kind, width;
      }
      ghost var first, related, head;
      kind, first, related, head := ParseExpression();
      if halted {
        return ERROR, value, kind, width;
      }
      value := out[|old(out)|..];
      if IdAt(toks, pos) != TCOLON {
        GenWrite(kind);
        return NORMAL, value, kind, width;
      }
      Consume();
      var num := toks[pos].num;
      Consume();
      if halted {
        return ERROR, value, kind, width;
      }
      width := Some(num);
      Emit(OpNum("LAD", "GR2,", num));
      GenWrite(kind);
      r := NORMAL;
    }

    /** pOutputStatement: `write` or `writeln`, optionally with a
        parenthesised list of formats; `writeln` prints WRITELINE once, after
        the list. */
    method ParseOutputStatement() returns (r: int)
      requires Valid() && !halted
      modifies this`pos, this`halted, this`labelCounter, this`out
      ensures Valid() && old(pos) < pos && old(labelCounter) <= labelCounter && old(out) <= out
      ensures (r == NORMAL || r == ERROR) && (halted ==> r == ERROR)
      ensures !halted && IdAt(toks, old(pos) + 1) != TLPAREN ==> (r == NORMAL && pos == old(pos) + 1 &&
        out == old(out) + (if IdAt(toks, old(pos)) == TWRITELN then [Op("CALL", "WRITELINE")] else []))
      ensures !halted && IdAt(toks, old(pos) + 1) == TLPAREN && IdAt(toks, old(pos)) == TWRITELN ==>
        |out| > |old(out)| && out[|out| - 1] == Op("CALL", "WRITELINE")
      ensures r == NORMAL && IdAt(toks, old(pos) + 1) == TLPAREN ==> IdAt(toks, pos - 1) == TRPAREN
    {
      var isWriteln := IdAt(toks, pos) == TWRITELN;
      Consume();
      if halted {
        return ERROR;
      }
      if IdAt(toks, pos) != TLPAREN {
        if isWriteln {
          Emit(Op("CALL", "WRITELINE"));
        }
        return NORMAL;
      }
      Consume();
      var f, value, kind, width := ParseOutputFormat();
      if halted {
        return ERROR;
      }
      while IdAt(toks, pos) == TCOMMA
        invariant Valid() && !halted && old(pos) < pos && old(labelCounter) <= labelCounter && old(out) <= out
        decreases |toks| - pos
      {
        Consume();
        f, value, kind, width := ParseOutputFormat();
        if halted {
          return ERROR;
        }
      }
      if isWriteln {
        Emit(Op("CALL", "WRITELINE"));
      }
      if IdAt(toks, pos) != TRPAREN {
        return ERROR;   // expected ')'
      }
      Consume();
      r := NORMAL;
    }

    /** pStatement. `break` and `call` print nothing; any token that starts
        no statement is the empty statement. */
    method ParseStatement() returns (r: int)
      requires Valid() && !halted
      modifies this`pos, this`halted, this`labelCounter, this`out
      decreases |toks| - pos, 11
      ensures Valid() && old(pos) <= pos && old(labelCounter) <= labelCounter && old(out) <= out
      ensures (r == NORMAL || r == ERROR) && (halted ==> r == ERROR)
      ensures !StartsStatement(IdAt(toks, old(pos))) ==> r == NORMAL && !halted && pos == old(pos) && out == old(out)
      ensures IdAt(toks, old(pos)) == TBREAK || IdAt(toks, old(pos)) == TCALL ==>
        r == NORMAL && !halted && pos == old(pos) + 1 && out == old(out)
      ensures IdAt(toks, old(pos)) == TRETURN ==>
        r == NORMAL && !halted && pos == old(pos) + 1 && out == old(out) + ReturnCode(procName)
    {
      var id := IdAt(toks, pos);
      r := NORMAL;
      if id == TNAME {
        ghost var lhs, rhs;
        r, lhs, rhs := ParseAssignment();
      } else if id == TIF {
        var l1, l2, hasElse;
        ghost var cond, thenPart, elsePart;
        r, cond, thenPart, elsePart, l1, l2, hasElse := ParseCondition();
      } else if id == TWHILE {
        ghost var cond, body;
        r, cond, body := ParseIteration();
      } else if id == TBREAK {
        Consume();
      } else if id == TCALL {
        r := ParseCall();
      } else if id == TRETURN {
        Consume();
        if procName.Some? {
          Emit(Line("\tRET"));
        } else {
          EmitAll([Op("CALL", "FLUSH"), Op("SVC", "0")]);
        }
      } else if id == TREAD || id == TREADLN {
        ghost var kinds;
        r, kinds := ParseInput();
      } else if id == TWRITE || id == TWRITELN {
        r := ParseOutputStatement();
      } else if id == TBEGIN {
        r := ParseCompoundStatement();
      }
      if halted {
        r := ERROR;
      }
    }

    /** pCompoundStatement: `begin` statements separated by `;` `end`, then
        RET. The statements' results are not looked at. */
    method ParseCompoundStatement() returns (r: int)
      requires Valid() && !halted
      modifies this`pos, this`halted, this`labelCounter, this`out
      decreases |toks| - pos, 10
      ensures Valid() && old(pos) <= pos && old(labelCounter) <= labelCounter && old(out) <= out
      ensures (r == NORMAL || r == ERROR) && (halted ==> r == ERROR)
      ensures IdAt(toks, old(pos)) != TBEGIN ==> r == ERROR && !halted && pos == old(pos) && out == old(out)
      ensures r == NORMAL ==> (IdAt(toks, old(pos)) == TBEGIN && IdAt(toks, pos - 1) == TEND &&
        |out| > |old(out)| && out[|out| - 1] == Line("\tRET"))
    {
      if IdAt(toks, pos) != TBEGIN {
        return ERROR;
      }
      Consume();
      var s := ParseStatement();
      if halted {
        return ERROR;
      }
      while IdAt(toks, pos) == TSEMI
        invariant Valid() && !halted && old(pos) < pos && old(labelCounter) <= labelCounter && old(out) <= out
        decreases |toks| - pos
      {
        Consume();
        s := ParseStatement();
        if halted {
          return ERROR;
        }
      }
      if IdAt(toks, pos) != TEND {
        return ERROR;   // expected 'end'
      }
      Consume();
      Emit(Line("\tRET"));
      r := NORMAL;
    }

    /** isArray, getArraySize and the println of one name in pVarNames, with
        the push of its label when it is a formal parameter. An array whose
        size does not read crashes the run. */
    method DeclareSymbol(s: Symbol, isparam: bool)
      requires Valid() && !halted
      modifies this`halted, this`params, this`out
      ensures !isparam ==> params == old(params)
      ensures Valid() && (halted <==> StorageOf(s).None?)
      ensures !halted ==> (out == old(out) + StorageLines(StorageOf(s).value) &&
        params == old(params) + (if isparam then [s.lbl] else []))
    {
      if IsArray(s) {
        if isparam {
          params := params + [s.lbl];
        }
        var size := GetArraySize(s.ty);
        if size.None? {
          halted := true;
          return;
        }
        out := out + [Line(s.lbl), OpNum("DS", "", size.value)];
      } else {
        if isparam {
          params := params + [s.lbl];
        }
        out := out + [Line(s.lbl), Op("DC", "0")];
      }
    }

    /** One name of pVarNames: its record, the declaration lines and, for a
        formal parameter, the push of its label. A name without a record
        crashes the run (isArray reads its NULL type). */
    method DeclareName(isparam: bool) returns (ghost st: Option<Storage>)
      requires Valid() && !halted
      modifies this`halted, this`params, this`out
      ensures !isparam ==> params == old(params)
      ensures Valid() && st == StorageAt(symbols, toks, pos, procName) && (halted <==> st.None?)
      ensures !halted ==> (out == old(out) + StorageLines(st.value) &&
        params == old(params) + (if isparam then [st.value.lbl] else []))
    {
      var s := GetSymbol(symbols, DeclKey(StrAt(toks, pos), procName));
      if s.None? {
        halted := true;
        return None;
      }
      DeclareSymbol(s.value, isparam);
      st := StorageOf(s.value);
    }

    /** One step of the loop of pVarNames: over the comma, then the name
        behind it is declared. */
    method DeclareNextName(isparam: bool) returns (ghost st: Option<Storage>)
      requires Valid() && !halted && IdAt(toks, pos) == TCOMMA
      modifies this`pos, this`halted, this`params, this`out
      ensures !isparam ==> params == old(params)
      ensures Valid() && pos == old(pos) + 1
      ensures !halted ==> (st.Some? && st == StorageAt(symbols, toks, old(pos) + 1, procName) &&
        out == old(out) + StorageLines(st.value) &&
        params == old(params) + (if isparam then [st.value.lbl] else []))
    {
      Consume();
      if halted {
        return None;
      }
      st := DeclareName(isparam);
    }

    /** The loop of pVarNames: while the cursor is at a comma, step over it
        and declare the name behind it. The cursor is not moved past that
        name, so the loop ends there unless the name token is itself a
        comma. */
    method DeclareAfterCommas(isparam: bool) returns (ghost rest: seq<Storage>)
      requires Valid() && !halted
      modifies this`pos, this`halted, this`params, this`out
      ensures !isparam ==> params == old(params)
      ensures Valid() && old(pos) <= pos
      ensures !halted ==> (pos == old(pos) + |rest| && out == old(out) + DeclAll(rest) &&
        params == old(params) + (if isparam then LabelsOf(rest) else []) && IdAt(toks, pos) != TCOMMA)
      ensures |rest| >= 1 ==> IdAt(toks, old(pos)) == TCOMMA && Some(rest[0]) == StorageAt(symbols, toks, old(pos) + 1, procName)
      ensures |rest| >= 2 ==> IdAt(toks, old(pos) + 1) == TCOMMA
      ensures IdAt(toks, old(pos)) != TCOMMA ==> rest == [] && !halted
      ensures IdAt(toks, old(pos)) == TCOMMA && !halted ==> |rest| >= 1
      ensures IdAt(toks, old(pos)) == TCOMMA && IdAt(toks, old(pos) + 1) != TCOMMA && !halted ==> |rest| == 1
    {
      rest := [];
      ghost var p0, out0, params0 := pos, out, params;
      while IdAt(toks, pos) == TCOMMA
        invariant Valid() && !halted && pos == p0 + |rest|
        invariant out == out0 + DeclAll(rest)
        invariant params == params0 + (if isparam then LabelsOf(rest) else [])
        invariant !isparam ==> params == params0
        invariant |rest| >= 1 ==> IdAt(toks, p0) == TCOMMA && Some(rest[0]) == StorageAt(symbols, toks, p0 + 1, procName)
        invariant |rest| >= 2 ==> IdAt(toks, p0 + 1) == TCOMMA
        decreases |toks| - pos
      {
        ghost var st := DeclareNextName(isparam);
        if halted {
          return;
        }
        DeclAllSnoc(rest, st.value);
        AppendAssoc(out0, DeclAll(rest), StorageLines(st.value));
        AppendAssoc(params0, LabelsOf(rest), [st.value.lbl]);
        rest := rest + [st.value];
      }
    }

    /** pVarNames: declares the name at the cursor and, after a comma, the
        name behind it. Of a list `a, b, c` only `a` and `b` are declared, as
        written, and the cursor is left at `b`. */
    method ParseVarNames(isparam: bool) returns (r: int, ghost declared: seq<Storage>)
      requires Valid() && !halted
      modifies this`pos, this`halted, this`params, this`out
      ensures !isparam ==> params == old(params)
      ensures Valid() && old(pos) <= pos && (r == NORMAL <==> !halted) && (r == NORMAL || r == ERROR)
      ensures !halted ==> (old(pos) < pos && |declared| >= 1 &&
        out == old(out) + DeclAll(declared) &&
        params == old(params) + (if isparam then LabelsOf(declared) else []))
      ensures !halted ==> Some(declared[0]) == StorageAt(symbols, toks, old(pos), procName) && IdAt(toks, pos) != TCOMMA
      ensures !halted && IdAt(toks, old(pos) + 1) != TCOMMA ==> pos == old(pos) + 1 && |declared| == 1
      ensures !halted && IdAt(toks, old(pos) + 1) == TCOMMA && IdAt(toks, old(pos) + 2) != TCOMMA ==>
        (pos == old(pos) + 2 && |declared| == 2 && Some(declared[1]) == StorageAt(symbols, toks, old(pos) + 2, procName))
    {
      declared := [];
      ghost var s := DeclareName(isparam);
      if halted {
        return ERROR, declared;
      }
      ghost var rest := DeclareRest(isparam);
      if halted {
        return ERROR, [s.value] + rest;
      }
      declared := DeclJoin(s.value, rest);
      AppendAssoc(old(out), StorageLines(s.value), DeclAll(rest));
      AppendAssoc(old(params), [s.value.lbl], LabelsOf(rest));
      r := NORMAL;
    }

    /** The part of pVarNames after the first name: over that name, then
        the loop over commas. */
    method DeclareRest(isparam: bool) returns (ghost rest: seq<Storage>)
      requires Valid() && !halted
      modifies this`pos, this`halted, this`params, this`out
      ensures !isparam ==> params == old(params)
      ensures Valid() && old(pos) < pos
      ensures !halted ==> (out == old(out) + DeclAll(rest) &&
        params == old(params) + (if isparam then LabelsOf(rest) else []) && IdAt(toks, pos) != TCOMMA)
      ensures !halted && IdAt(toks, old(pos) + 1) != TCOMMA ==> pos == old(pos) + 1 && rest == []
      ensures !halted && IdAt(toks, old(pos) + 1) == TCOMMA && IdAt(toks, old(pos) + 2) != TCOMMA ==>
        (pos == old(pos) + 2 && |rest| == 1 && Some(rest[0]) == StorageAt(symbols, toks, old(pos) + 2, procName))
    {
      rest := [];
      Consume();
      if halted {
        return;
      }
      ghost var p1 := pos;
      rest := DeclareAfterCommas(isparam);
      if halted {
        return;
      }
      assert pos == p1 + |rest| && p1 == old(pos) + 1;
      if IdAt(toks, p1) == TCOMMA && IdAt(toks, p1 + 1) != TCOMMA {
        assert |rest| == 1;
      }
    }

    /** `while (cur->id != a && cur->id != b) consumeToken();` */
    method SkipUntil(a: int, b: int)
      requires Valid() && !halted
      modifies this`pos, this`halted
      ensures Valid() && old(pos) <= pos
      ensures !halted ==> IdAt(toks, pos) == a || IdAt(toks, pos) == b
      ensures forall j :: old(pos) <= j < pos ==> IdAt(toks, j) != a && IdAt(toks, j) != b
    {
      while IdAt(toks, pos) != a && IdAt(toks, pos) != b
        invariant Valid() && !halted && old(pos) <= pos
        invariant forall j :: old(pos) <= j < pos ==> IdAt(toks, j) != a && IdAt(toks, j) != b
        decreases |toks| - pos
      {
        Consume();
        if halted {
          return;
        }
      }
    }

    /** One declaration line of pVarDeclaration: the names pVarNames
        declares, then everything up to and over the `;`. */
    method ParseDeclarationLine() returns (ghost declared: seq<Storage>)
      requires Valid() && !halted
      modifies this`pos, this`halted, this`params, this`out
      ensures Valid() && old(pos) <= pos && params == old(params)
      ensures !halted ==> old(pos) < pos && out == old(out) + DeclAll(declared) && IdAt(toks, pos - 1) == TSEMI
    {
      var v;
      v, declared := ParseVarNames(false);
      if halted {
        return;
      }
      SkipUntil(TSEMI, TSEMI);
      if halted {
        return;
      }
      Consume();
    }

    /** pVarDeclaration: `var`, then declaration lines while a line starts
        with a name; of each line only the names pVarNames declares are
        printed. Declaring variables pushes no parameter. */
    method ParseVarDeclaration() returns (r: int, ghost declared: seq<Storage>)
      requires Valid() && !halted
      modifies this`pos, this`halted, this`params, this`out
      ensures Valid() && old(pos) < pos && params == old(params) && (r == NORMAL <==> !halted)
      ensures !halted ==> (out == old(out) + DeclAll(declared) && IdAt(toks, pos - 1) == TSEMI &&
        IdAt(toks, pos) != TNAME)
    {
      declared := [];
      Consume();
      if !halted {
        ghost var d := ParseDeclarationLine();
        if !halted {
          ghost var more := ParseDeclarationLines();
          if !halted {
            declared := DeclConcat(old(out), d, more);
          }
        }
      }
      r := if halted then ERROR else NORMAL;
    }

    /** The loop of pVarDeclaration: one more declaration line while the
        cursor is at a name. */
    method ParseDeclarationLines() returns (ghost declared: seq<Storage>)
      requires Valid() && !halted && IdAt(toks, pos - 1) == TSEMI
      modifies this`pos, this`halted, this`params, this`out
      ensures Valid() && old(pos) <= pos && params == old(params)
      ensures !halted ==> (out == old(out) + DeclAll(declared) && IdAt(toks, pos - 1) == TSEMI &&
        IdAt(toks, pos) != TNAME)
    {
      declared := [];
      ghost var out0 := out;
      while IdAt(toks, pos) == TNAME
        invariant Valid() && !halted && old(pos) <= pos && params == old(params)
        invariant out == out0 + DeclAll(declared)
        invariant IdAt(toks, pos - 1) == TSEMI
        decreases |toks| - pos
      {
        ghost var d := ParseDeclarationLine();
        if halted {
          return;
        }
        DeclAllAppend(declared, d);
        AppendAssoc(out0, DeclAll(declared), DeclAll(d));
        declared := declared + d;
      }
    }

    /** pFormalParameters: `(`, then groups separated by `;` up to `)`; each
        group's names are declared as pVarNames declares them and their
        labels pushed on the parameter stack. */
    method ParseFormalParameters() returns (r: int, ghost declared: seq<Storage>)
      requires Valid() && !halted
      modifies this`pos, this`halted, this`params, this`out
      ensures Valid() && old(pos) <= pos && (r == NORMAL || r == ERROR) && (halted ==> r == ERROR)
      ensures IdAt(toks, old(pos)) != TLPAREN ==>
        (r == ERROR && !halted && pos == old(pos) && out == old(out) && params == old(params))
      ensures IdAt(toks, old(pos)) == TLPAREN && !IdentAt(toks, old(pos) + 1) ==>
        (r == ERROR && !halted && pos == old(pos) + 1 && out == old(out) && params == old(params))
      ensures !halted ==> out == old(out) + DeclAll(declared) && params == old(params) + LabelsOf(declared)
      ensures r == NORMAL ==> |declared| >= 1 && IdAt(toks, pos - 1) == TRPAREN
    {
      declared := [];
      if IdAt(toks, pos) != TLPAREN {
        return ERROR, declared;
      }
      Consume();
      if !IdentAt(toks, pos) {
        return ERROR, declared;   // expected variable name
      }
      r, declared := ParseParameterList();
    }

    /** The groups of pFormalParameters after its `(`: a group, then while
        the cursor is at `;` another, up to and over the `)`. */
    method ParseParameterList() returns (r: int, ghost declared: seq<Storage>)
      requires Valid() && !halted
      modifies this`pos, this`halted, this`params, this`out
      ensures Valid() && old(pos) <= pos && (r == NORMAL || r == ERROR) && (r == NORMAL <==> !halted)
      ensures !halted ==> out == old(out) + DeclAll(declared) && params == old(params) + LabelsOf(declared)
      ensures r == NORMAL ==> |declared| >= 1 && IdAt(toks, pos - 1) == TRPAREN
    {
      declared := [];
      ghost var out0, params0 := out, params;
      ghost var d := ParseParameterGroup();
      if halted {
        return ERROR, declared;
      }
      declared := d;
      // The source's loop `while (cur is ';' or ')') { if ')' { consume; break } ... }`
      // written as a loop over ';' and the `)` that must follow it.
      while IdAt(toks, pos) == TSEMI
        invariant Valid() && !halted && |declared| >= 1
        invariant out == out0 + DeclAll(declared) && params == params0 + LabelsOf(declared)
        invariant IdAt(toks, pos) == TSEMI || IdAt(toks, pos) == TRPAREN
        decreases |toks| - pos
      {
        Consume();
        if halted {
          return ERROR, declared;
        }
        d := ParseParameterGroup();
        if halted {
          return ERROR, declared;
        }
        DeclAllAppend(declared, d);
        AppendAssoc(out0, DeclAll(declared), DeclAll(d));
        AppendAssoc(params0, LabelsOf(declared), LabelsOf(d));
        declared := declared + d;
      }
      Consume();   // the ')'
      r := NORMAL;
    }

    /** One group of pFormalParameters: the names pVarNames declares as
        parameters, then everything up to the next `;` or `)`. */
    method ParseParameterGroup() returns (ghost declared: seq<Storage>)
      requires Valid() && !halted
      modifies this`pos, this`halted, this`params, this`out
      ensures Valid() && old(pos) <= pos
      ensures !halted ==> (|declared| >= 1 && out == old(out) + DeclAll(declared) &&
        params == old(params) + LabelsOf(declared) && (IdAt(toks, pos) == TSEMI || IdAt(toks, pos) == TRPAREN))
    {
      var v;
      v, declared := ParseVarNames(true);
      if halted {
        return;
      }
      SkipUntil(TSEMI, TRPAREN);
    }

    /** The procedure entry of pSubProgram: the parameter labels are popped
        off parameter_stack, last first, each with a store of the argument. */
    method GenParameterEntry()
      modifies this`params, this`out
      ensures params == [] && out == old(out) + ParamEntry(old(params))
    {
      if params == [] {
        return;
      }
      EmitAll([Op("POP", "GR2"), Op("POP", "GR1")]);
      ghost var ps0, out0 := params, out;
      ghost var acc: seq<Instr> := [];
      while true
        invariant params != [] && Stores(ps0) == acc + Stores(params)
        invariant out == out0 + acc
        decreases |params|
      {
        var lbl := params[|params| - 1];
        ghost var before := params;
        params := params[..|params| - 1];
        Emit(Op("ST", "GR1," + lbl));
        StoresStep(before);
        if params == [] {
          AppendAssoc(out0, acc, [Op("ST", "GR1," + lbl)]);
          break;
        }
        Emit(Op("POP", "GR1"));
        AppendAssoc(acc, [Op("ST", "GR1," + lbl), Op("POP", "GR1")], Stores(params));
        SnocTwo(out0, acc, Op("ST", "GR1," + lbl), Op("POP", "GR1"));
        acc := acc + [Op("ST", "GR1," + lbl), Op("POP", "GR1")];
      }
      assert out == out0 + Stores(ps0);
      Emit(Op("PUSH", "0,GR2"));
      AppendAssoc(old(out), [Op("POP", "GR2"), Op("POP", "GR1")], Stores(ps0));
      AppendAssoc(old(out), [Op("POP", "GR2"), Op("POP", "GR1")] + Stores(ps0), [Op("PUSH", "0,GR2")]);
    }

    /** pSubProgram: the procedure's name, its formal parameters when a `(`
        follows, the `;`, its local variables, then its entry label, the
        stores of its arguments, its body and the closing `;`. procname
        is left set when the procedure does not end as it should. */
    method ParseSubProgram() returns (r: int, ghost formals: seq<Storage>, ghost locals: seq<Storage>,
                                      ghost body: seq<Instr>)
      requires Valid() && !halted
      modifies this`pos, this`halted, this`procName, this`params, this`labelCounter, this`out
      ensures Valid() && old(pos) < pos && old(labelCounter) <= labelCounter
      ensures (r == NORMAL || r == ERROR) && (halted ==> r == ERROR)
      ensures r == NORMAL ==> procName.None? && IdAt(toks, pos - 1) == TSEMI
      ensures !halted && r == ERROR ==> procName == Some(StrAt(toks, old(pos)))
      ensures !halted ==> (params == [] &&
        out == old(out) + DeclAll(formals) + DeclAll(locals) + [Line(ProcLabel(symbols, StrAt(toks, old(pos))))] +
          ParamEntry(old(params) + LabelsOf(formals)) + body)
    {
      ghost var name := StrAt(toks, pos);
      body := [];
      formals, locals := ParseProcHeading();
      if halted {
        return ERROR, formals, locals, body;
      }
      r, body := ParseProcBody(name);
    }

    /** The part of pSubProgram up to the procedure's entry label: the name
        becomes procname, then the formal parameters, the token after them
        and the local variables. */
    method ParseProcHeading() returns (ghost formals: seq<Storage>, ghost locals: seq<Storage>)
      requires Valid() && !halted
      modifies this`pos, this`halted, this`procName, this`params, this`out
      ensures Valid() && old(pos) < pos && procName == Some(StrAt(toks, old(pos)))
      ensures !halted ==> (out == old(out) + DeclAll(formals) + DeclAll(locals) &&
        params == old(params) + LabelsOf(formals))
    {
      locals := [];
      formals := ParseProcName();
      if halted {
        return;
      }
      Consume();
      if halted {
        return;
      }
      if IdAt(toks, pos) == TVAR {
        var v;
        v, locals := ParseVarDeclaration();
      }
    }

    /** The procedure's name, which becomes procname, and the formal
        parameters when a `(` follows it. */
    method ParseProcName() returns (ghost formals: seq<Storage>)
      requires Valid() && !halted
      modifies this`pos, this`halted, this`procName, this`params, this`out
      ensures Valid() && old(pos) < pos && procName == Some(StrAt(toks, old(pos)))
      ensures !halted ==> (out == old(out) + DeclAll(formals) && params == old(params) + LabelsOf(formals))
    {
      formals := [];
      procName := Some(StrAt(toks, pos));
      Consume();
      if !halted && IdAt(toks, pos) == TLPAREN {
        var f;
        f, formals := ParseFormalParameters();
      }
    }

    /** The part of pSubProgram from the entry label on. */
    method ParseProcBody(ghost name: string) returns (r: int, ghost body: seq<Instr>)
      requires Valid() && !halted && procName == Some(name)
      modifies this`pos, this`halted, this`procName, this`params, this`labelCounter, this`out
      ensures Valid() && old(pos) <= pos && old(labelCounter) <= labelCounter
      ensures (r == NORMAL || r == ERROR) && (halted ==> r == ERROR)
      ensures r == NORMAL ==> procName.None? && IdAt(toks, pos - 1) == TSEMI
      ensures r == ERROR ==> procName == old(procName)
      ensures !halted ==> (params == [] &&
        out == old(out) + [Line(ProcLabel(symbols, name))] + ParamEntry(old(params)) + body)
    {
      var sym := GetSymbol(symbols, procName.value);
      Emit(Line(if sym.Some? then sym.value.lbl else "(null)"));
      GenParameterEntry();
      r, body := ParseProcEnd();
    }

    /** The end of pSubProgram: the body, whose result is not looked at, and
        the `;` behind it; procname is cleared when that is there. */
    method ParseProcEnd() returns (r: int, ghost body: seq<Instr>)
      requires Valid() && !halted
      modifies this`pos, this`halted, this`procName, this`labelCounter, this`out
      ensures Valid() && old(pos) <= pos && old(labelCounter) <= labelCounter
      ensures (r == NORMAL || r == ERROR) && (halted ==> r == ERROR)
      ensures r == NORMAL ==> procName.None? && IdAt(toks, pos - 1) == TSEMI
      ensures r == ERROR ==> procName == old(procName)
      ensures !halted ==> out == old(out) + body
    {
      var c := ParseCompoundStatement();
      body := PrefixRest(old(out), out);
      if halted {
        return ERROR, body;
      }
      if IdAt(toks, pos) != TSEMI {
        return ERROR, body;   // expected ';'
      }
      Consume();
      procName := None;
      r := NORMAL;
    }

    /** pBlock: variable declarations and procedures in any order, then
        `LAD GR0,0` and the main compound statement. The results of the
        declarations and procedures are not looked at. */
    method ParseBlock() returns (r: int, ghost decls: seq<Instr>, ghost at: nat, ghost main: seq<Instr>)
      requires Valid() && !halted
      modifies this`pos, this`halted, this`procName, this`params, this`labelCounter, this`out
      ensures Valid() && old(pos) <= pos && old(labelCounter) <= labelCounter
      ensures (r == NORMAL || r == ERROR) && (halted ==> r == ERROR)
      ensures !halted ==> (out == old(out) + decls + [Op("LAD", "GR0,0")] + main &&
        old(pos) <= at && IdAt(toks, at) != TVAR && IdAt(toks, at) != TPROCEDURE)
      ensures r == NORMAL ==> (IdAt(toks, at) == TBEGIN && IdAt(toks, pos - 1) == TEND &&
        |main| >= 1 && main[|main| - 1] == Line("\tRET"))
    {
      decls, at, main := [], pos, [];
      ghost var o0 := out;
      while true
        invariant Valid() && !halted && old(pos) <= pos && old(labelCounter) <= labelCounter && o0 <= out
        decreases |toks| - pos
      {
        if IdAt(toks, pos) != TVAR && IdAt(toks, pos) != TPROCEDURE {
          break;
        }
        ParseBlockEntry();
        if halted {
          return ERROR, decls, at, main;
        }
      }
      decls := PrefixRest(o0, out);
      at := pos;
      Emit(Op("LAD", "GR0,0"));
      ghost var o1 := out;
      r := ParseCompoundStatement();
      main := PrefixRest(o1, out);
    }

    /** One turn of pBlock's loop: a variable declaration, or `procedure`
        and a procedure. */
    method ParseBlockEntry()
      requires Valid() && !halted && (IdAt(toks, pos) == TVAR || IdAt(toks, pos) == TPROCEDURE)
      modifies this`pos, this`halted, this`procName, this`params, this`labelCounter, this`out
      ensures Valid() && old(pos) < pos && old(labelCounter) <= labelCounter
      ensures !halted ==> old(out) <= out
    {
      if IdAt(toks, pos) == TVAR {
        var v, d := ParseVarDeclaration();
      } else {
        Consume();
        if halted {
          return;
        }
        var v, f, l, b := ParseSubProgram();
      }
    }

    /** pProgramst: `program`, the program's name, which the START line
        carries with the first label, two tokens passed over, the block and
        the token after it. The block's result is not looked at. */
    method ParseProgram() returns (r: int, ghost decls: seq<Instr>, ghost main: seq<Instr>)
      requires Valid() && !halted
      modifies this`pos, this`halted, this`procName, this`params, this`labelCounter, this`out
      ensures Valid() && (r == NORMAL || r == ERROR) && (halted ==> r == ERROR)
      ensures IdAt(toks, old(pos)) != TPROGRAM ==> (r == ERROR && !halted && out == old(out) && pos == old(pos))
      ensures IdAt(toks, old(pos)) == TPROGRAM && !halted ==> (r == NORMAL &&
        out == old(out) + [Line(StartLine(StrAt(toks, old(pos) + 1), old(labelCounter)))] + decls +
          [Op("LAD", "GR0,0")] + main)
    {
      decls, main := [], [];
      if IdAt(toks, pos) != TPROGRAM {
        return ERROR, decls, main;   // keyword 'program' is not found
      }
      Consume();
      var l := GetLabelNum();
      Emit(Line(StartLine(StrAt(toks, pos), l)));
      Consume();
      if halted {
        return ERROR, decls, main;
      }
      Consume();
      if halted {
        return ERROR, decls, main;
      }
      var b;
      ghost var at;
      b, decls, at, main := ParseBlock();
      if halted {
        return ERROR, decls, main;
      }
      // The token after the block. Past the last token cur becomes NULL,
      // which nothing reads any more.
      if pos + 1 < |toks| {
        Consume();
      }
      r := NORMAL;
    }
  }

  /** codegen: the cross-reference text is split into records, the program
      is translated, and the runtime library follows a translated program.
      A cross-reference text parseSymbols cannot split crashes the run. */
  method Generate(toks: seq<Token>, buf: string, lineCount: int, runtime: seq<Instr>)
    returns (r: int, out: seq<Instr>, crashed: bool)
    requires |toks| > 0 && toks[|toks| - 1].id == 0
    ensures ParseRecords(buf, lineCount).None? ==> crashed && out == []
    ensures crashed ==> r == ERROR
    ensures ParseRecords(buf, lineCount).Some? && IdAt(toks, 0) != TPROGRAM ==> r == ERROR && !crashed && out == []
    ensures r == NORMAL ==> (IdAt(toks, 0) == TPROGRAM && |out| >= |runtime| + 2 &&
      out[0] == Line(StartLine(StrAt(toks, 1), 1)) && out[|out| - |runtime|..] == runtime)
    ensures !crashed && IdAt(toks, 0) == TPROGRAM ==> r == NORMAL
  {
    var syms := ParseSymbols(buf, lineCount);
    if syms.None? {
      return ERROR, [], true;
    }
    var g := new Generator(toks, syms.value);
    ghost var decls, main;
    r, decls, main := g.ParseProgram();
    out, crashed := g.out, g.halted;
    if r == ERROR {
      return;
    }
    out := out + runtime;
  }
}
