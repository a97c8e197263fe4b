/** The parts of the program that compiler/compiler.go writes around the
    generated blocks: the data section, the entry point `main` and the
    footer with the result print and the error handlers. The whole program
    is kept as structured lines, so that its labels, jumps and data symbols
    can be reasoned about; `Exit` says where the program's depth
    bookkeeping leads it. */
module Assembly {
  import opened Instructions
  import opened Strings
  import opened Escape
  import opened Generator
  import Lexer

  /** A line of the data section: a double-precision value or a
      NUL-terminated string, under a symbol. */
  datatype Data = Double(symbol: string, value: string) | Asciz(symbol: string, text: string)

  /** The data every program carries: the scratch cells and the message
      strings (written in assembler syntax, so `\n` is two characters). */
  const FixedData: seq<Data> := [
    Double("a", "0.0"),
    Double("b", "0.0"),
    Double("depth", "0.0"),
    Double("int", "0.0"),
    Asciz("fmt", "Result %g\\n"),
    Asciz("div_zero", DivZeroText),
    Asciz("overflow", OverflowText),
    Asciz("stack_err", StackErrText),
    Asciz("stack_full", StackFullText)
  ]

  const Aborting := "  Aborting\\n"
  const DivZeroText := "Attempted division by zero." + Aborting
  const OverflowText := "Overflow - value out of range." + Aborting
  const StackErrText := "Insufficient entries on the stack." + Aborting
  const StackFullText := "Too many entries remaining " + "on the stack." + Aborting

  /** The data line of a constant: the literal under its escaped symbol. */
  function ConstantData(v: string): Data {
    Double(EscapeConstant(v), v)
  }

  /** The data lines of the constants, in the order they are written. */
  function ConstantsData(order: seq<string>): (ds: seq<Data>)
    ensures |ds| == |order|
    ensures forall k | 0 <= k < |order| :: ds[k] == ConstantData(order[k])
    decreases |order|
  {
    if order == [] then []
    else ConstantsData(order[..|order| - 1]) + [ConstantData(order[|order| - 1])]
  }

  function DataText(d: Data): string {
    match d
    case Double(s, v) => s + ": .double " + v + "\n"
    case Asciz(s, t) => s + ": .asciz \"" + t + "\"\n"
  }

  function DataLines(ds: seq<Data>): string
    decreases |ds|
  {
    if ds == [] then "" else DataText(ds[0]) + DataLines(ds[1..])
  }

  /** One more constant's data line, as ConstantLines writes it. */
  lemma ConstantsDataSnoc(order: seq<string>, v: string)
    ensures DataLines(ConstantsData(order + [v])) == DataLines(ConstantsData(order)) + DataText(ConstantData(v))
  {
    assert (order + [v])[..|order|] == order;
    assert ConstantsData(order + [v]) == ConstantsData(order) + [ConstantData(v)];
    DataLinesAppend(ConstantsData(order), [ConstantData(v)]);
    assert DataLines([ConstantData(v)]) == DataText(ConstantData(v)) + DataLines([]);
  }

  lemma {:induction false} DataLinesAppend(a: seq<Data>, b: seq<Data>)
    ensures DataLines(a + b) == DataLines(a) + DataLines(b)
    decreases |a|
  {
    if a == [] {
      assert a + b == b;
    } else {
      var ab := a + b;
      assert ab[0] == a[0] && ab[1..] == a[1..] + b;
      DataLinesAppend(a[1..], b);
    }
  }

  /** The assembler directives at the top of the file. */
  const Directives := ".intel_syntax noprefix\n.global main\n.data\n"

  /** The depth counter `main` starts from, and the depth the footer
      expects when the body has run. */
  const InitialDepth: nat := 0
  const ExpectedDepth: nat := 1

  /** Instruction lines, one per string. */
  function AsmLines(ss: seq<string>): (ops: seq<Op>)
    ensures |ops| == |ss|
    ensures forall k | 0 <= k < |ss| :: ops[k] == Asm(Text(ss[k]))
  {
    seq(|ss|, k requires 0 <= k < |ss| => Asm(Text(ss[k])))
  }

  /** The entry point: save rbp and clear the depth counter. */
  function Entry(): seq<Op> {
    [Label(Text("main"))] + AsmLines(["push rbp", "mov qword ptr [depth], " + Dec(InitialDepth)])
  }

  /** The breakpoint written in debug mode. */
  function DebugBreak(): seq<Op> {
    [Note(Text("Debug-break"))] + AsmLines(["int 03"])
  }

  function Prologue(debug: bool): seq<Op> {
    Entry() + (if debug then DebugBreak() else [])
  }

  lemma {:induction false} CodeTextAppend(a: seq<Op>, b: seq<Op>)
    ensures CodeText(a + b) == CodeText(a) + CodeText(b)
    decreases |a|
  {
    if a == [] {
      assert a + b == b;
    } else {
      var ab := a + b;
      assert ab[0] == a[0] && ab[1..] == a[1..] + b;
      CodeTextAppend(a[1..], b);
    }
  }

  /** The end of the body: with exactly one entry left, pop and print it
      and return 0 from `main`; otherwise go to `stack_too_full`. */
  function PrintResult(): seq<Op> {
    [Note(Text("[PRINT]"))]
    + AsmLines(["mov rax, qword ptr [depth]", "cmp rax, " + Dec(ExpectedDepth)])
    + [Jump("jne", Text(StackTooFull))]
    + AsmLines(["pop rax", "mov qword ptr [a], rax", "lea rdi,fmt", "movq xmm0, [a]",
                "movq rax, 1", "call printf", "pop rbp", "xor rax,rax", "ret"])
  }

  /** The message symbol each error handler loads. */
  function Message(handler: string): string {
    if handler == DivisionByZero then "div_zero"
    else if handler == RegisterOverflow then "overflow"
    else if handler == StackTooFull then "stack_full"
    else "stack_err"
  }

  /** An error handler that loads its message and jumps to the exit. */
  function Abort(handler: string): seq<Op> {
    [Label(Text(handler)), Asm(Text("lea rdi," + Message(handler))), Jump("jmp", Text(PrintMsgAndExit))]
  }

  /** The last two handlers: `stack_error` loads its message and falls
      through into the shared print-and-exit code. */
  function Exits(): seq<Op> {
    [Label(Text(StackError)), Asm(Text("lea rdi," + Message(StackError)))]
    + [Label(Text(PrintMsgAndExit))]
    + AsmLines(["xor rax,rax", "call printf", "mov rdi,0", "call exit"])
  }

  function Footer(): seq<Op> {
    PrintResult() + Abort(DivisionByZero) + Abort(RegisterOverflow) + Abort(StackTooFull) + Exits()
  }

  // ---------------------------------------------------------------------
  // The whole program

  datatype Program = Program(data: seq<Data>, prologue: seq<Op>, body: seq<Block>, footer: seq<Op>)

  /** The program for a body of instructions, with the constants' data
      lines written in `order`. */
  function Layout(order: seq<string>, debug: bool, prog: seq<Instruction>): Program {
    Program(FixedData + ConstantsData(order), Prologue(debug), Blocks(prog), Footer())
  }

  function BlocksText(bs: seq<Block>): string
    decreases |bs|
  {
    if bs == [] then "" else BlocksText(bs[..|bs| - 1]) + BlockText(bs[|bs| - 1])
  }

  function ProgramText(p: Program): string {
    Directives + DataLines(p.data) + CodeText(p.prologue) + BlocksText(p.body) + CodeText(p.footer)
  }

  // ---------------------------------------------------------------------
  // Labels and jumps of the fixed parts

  lemma LabelsOfAppend(a: seq<Op>, b: seq<Op>)
    ensures LabelsOf(a + b) == LabelsOf(a) + LabelsOf(b)
    ensures TargetsOf(a + b) == TargetsOf(a) + TargetsOf(b)
  {
    assert forall op :: op in a + b <==> op in a || op in b;
  }

  lemma AsmLinesPlain(ss: seq<string>)
    ensures LabelsOf(AsmLines(ss)) == {} && TargetsOf(AsmLines(ss)) == {}
  {
    var ops := AsmLines(ss);
    forall op | op in ops ensures op.Asm? {
      var k :| 0 <= k < |ops| && ops[k] == op;
    }
  }

  lemma PrologueShape(debug: bool)
    ensures LabelsOf(Prologue(debug)) == {"main"} && TargetsOf(Prologue(debug)) == {}
  {
    var regs := ["push rbp", "mov qword ptr [depth], " + Dec(InitialDepth)];
    var head := [Label(Text("main"))];
    AsmLinesPlain(regs);
    AsmLinesPlain(["int 03"]);
    LabelsOfAppend(head, AsmLines(regs));
    LabelsOfAppend([Note(Text("Debug-break"))], AsmLines(["int 03"]));
    LabelsOfAppend(Entry(), if debug then DebugBreak() else []);
    assert LabelsOf(head) == {"main"} by {
      assert head[0] in head;
    }
  }

  lemma PrintResultShape()
    ensures LabelsOf(PrintResult()) == {} && TargetsOf(PrintResult()) == {StackTooFull}
  {
    var s1 := ["mov rax, qword ptr [depth]", "cmp rax, " + Dec(ExpectedDepth)];
    var s2 := ["pop rax", "mov qword ptr [a], rax", "lea rdi,fmt", "movq xmm0, [a]",
               "movq rax, 1", "call printf", "pop rbp", "xor rax,rax", "ret"];
    var n := [Note(Text("[PRINT]"))];
    var j := [Jump("jne", Text(StackTooFull))];
    AsmLinesPlain(s1);
    AsmLinesPlain(s2);
    LabelsOfAppend(n, AsmLines(s1));
    LabelsOfAppend(n + AsmLines(s1), j);
    LabelsOfAppend(n + AsmLines(s1) + j, AsmLines(s2));
    assert j[0] in j;
  }

  lemma AbortShape(h: string)
    ensures LabelsOf(Abort(h)) == {h} && TargetsOf(Abort(h)) == {PrintMsgAndExit}
  {
    var ops := Abort(h);
    assert ops[0] in ops && ops[2] in ops;
  }

  lemma ExitsShape()
    ensures LabelsOf(Exits()) == {StackError, PrintMsgAndExit} && TargetsOf(Exits()) == {}
  {
    var a := [Label(Text(StackError)), Asm(Text("lea rdi," + Message(StackError)))];
    var b := [Label(Text(PrintMsgAndExit))];
    var c := AsmLines(["xor rax,rax", "call printf", "mov rdi,0", "call exit"]);
    AsmLinesPlain(["xor rax,rax", "call printf", "mov rdi,0", "call exit"]);
    LabelsOfAppend(a, b);
    LabelsOfAppend(a + b, c);
    assert a[0] in a && b[0] in b;
  }

  /** The footer defines exactly the handler labels the blocks jump to, and
      its own jumps stay inside it. */
  lemma FooterShape()
    ensures LabelsOf(Footer()) == FooterLabels
    ensures TargetsOf(Footer()) == {StackTooFull, PrintMsgAndExit}
  {
    PrintResultShape();
    AbortShape(DivisionByZero);
    AbortShape(RegisterOverflow);
    AbortShape(StackTooFull);
    ExitsShape();
    JoinShape(PrintResult(), Abort(DivisionByZero), Abort(RegisterOverflow), Abort(StackTooFull), Exits());
  }

  lemma JoinShape(p: seq<Op>, d: seq<Op>, r: seq<Op>, s: seq<Op>, e: seq<Op>)
    requires LabelsOf(p) == {} && TargetsOf(p) == {StackTooFull}
    requires LabelsOf(d) == {DivisionByZero} && TargetsOf(d) == {PrintMsgAndExit}
    requires LabelsOf(r) == {RegisterOverflow} && TargetsOf(r) == {PrintMsgAndExit}
    requires LabelsOf(s) == {StackTooFull} && TargetsOf(s) == {PrintMsgAndExit}
    requires LabelsOf(e) == {StackError, PrintMsgAndExit} && TargetsOf(e) == {}
    ensures LabelsOf(p + d + r + s + e) == FooterLabels
    ensures TargetsOf(p + d + r + s + e) == {StackTooFull, PrintMsgAndExit}
  {
    LabelsOfAppend(p, d);
    LabelsOfAppend(p + d, r);
    LabelsOfAppend(p + d + r, s);
    LabelsOfAppend(p + d + r + s, e);
    JoinSets(LabelsOf(p + d + r + s + e), TargetsOf(p + d + r + s + e),
             LabelsOf(p + d + r + s), TargetsOf(p + d + r + s));
  }

  lemma JoinSets(labels: set<string>, targets: set<string>, front: set<string>, frontTargets: set<string>)
    requires front == {} + {DivisionByZero} + {RegisterOverflow} + {StackTooFull}
    requires frontTargets == {StackTooFull} + {PrintMsgAndExit} + {PrintMsgAndExit} + {PrintMsgAndExit}
    requires labels == front + {StackError, PrintMsgAndExit} && targets == frontTargets + {}
    ensures labels == FooterLabels && targets == {StackTooFull, PrintMsgAndExit}
  {
  }

  /** The message string each handler symbol names. */
  function MessageText(symbol: string): string {
    if symbol == "div_zero" then DivZeroText
    else if symbol == "overflow" then OverflowText
    else if symbol == "stack_full" then StackFullText
    else StackErrText
  }

  /** The message symbol of each handler. */
  lemma MessageSymbols()
    ensures Message(DivisionByZero) == "div_zero" && Message(RegisterOverflow) == "overflow"
    ensures Message(StackTooFull) == "stack_full" && Message(StackError) == "stack_err"
  {
    assert DivisionByZero[0] == 'd' && RegisterOverflow[0] == 'r';
    assert StackTooFull[6] == 't' && StackError[6] == 'e';
  }

  /** Each error handler loads the address of its own message, a string of
      the data section, and the four messages are different. */
  lemma HandlerMessages()
    ensures forall h | h in FooterLabels && h != PrintMsgAndExit ::
      Asciz(Message(h), MessageText(Message(h))) in FixedData
    ensures forall h1, h2 | h1 in FooterLabels && h2 in FooterLabels && h1 != PrintMsgAndExit && h2 != PrintMsgAndExit ::
      h1 != h2 ==> MessageText(Message(h1)) != MessageText(Message(h2))
  {
    forall h | h in FooterLabels && h != PrintMsgAndExit
      ensures Asciz(Message(h), MessageText(Message(h))) in FixedData
    {
      HandlerMessage(h);
    }
    forall h1, h2 | h1 in FooterLabels && h2 in FooterLabels && h1 != PrintMsgAndExit && h2 != PrintMsgAndExit
      ensures h1 != h2 ==> MessageText(Message(h1)) != MessageText(Message(h2))
    {
      HandlerMessage(h1);
      HandlerMessage(h2);
      FirstLetters(h1, h2);
    }
  }

  /** Different handlers have different first letters. */
  lemma FirstLetters(h1: string, h2: string)
    requires h1 in FooterLabels && h2 in FooterLabels && h1 != PrintMsgAndExit && h2 != PrintMsgAndExit
    ensures h1 != h2 ==> FirstLetter(h1) != FirstLetter(h2)
  {
  }

  /** The first letter of the message of each handler. */
  function FirstLetter(h: string): char {
    if h == DivisionByZero then 'A'
    else if h == RegisterOverflow then 'O'
    else if h == StackTooFull then 'T'
    else 'I'
  }

  /** One handler's message is in the data section and starts with the
      handler's own letter. */
  lemma HandlerMessage(h: string)
    requires h in FooterLabels && h != PrintMsgAndExit
    ensures Asciz(Message(h), MessageText(Message(h))) in FixedData
    ensures MessageText(Message(h))[0] == FirstLetter(h)
  {
    MessageSymbols();
    if h == DivisionByZero {
      assert FixedData[5] == Asciz(Message(h), DivZeroText) && DivZeroText[0] == 'A';
    } else if h == RegisterOverflow {
      assert FixedData[6] == Asciz(Message(h), OverflowText) && OverflowText[0] == 'O';
    } else if h == StackTooFull {
      assert FixedData[8] == Asciz(Message(h), StackFullText) && StackFullText[0] == 'T';
    } else {
      assert FixedData[7] == Asciz(Message(h), StackErrText) && StackErrText[0] == 'I';
    }
  }

  /** Every handler but the last jumps to the shared exit; `stack_error` is
      placed directly before it and falls through. */
  lemma HandlersReachExit()
    ensures forall h | h in FooterLabels && h != PrintMsgAndExit && h != StackError ::
      Abort(h)[2] == Jump("jmp", Text(PrintMsgAndExit))
    ensures Exits()[0] == Label(Text(StackError)) && Exits()[2] == Label(Text(PrintMsgAndExit))
  {
  }

  // ---------------------------------------------------------------------
  // Where the program ends

  /** Where the depth bookkeeping sends a compiled program: to the print of
      its result, or to an error handler that prints its message and exits. */
  datatype Outcome = Printed | Aborted(handler: string)

  /** The depth bookkeeping of the body, followed by the footer's check of
      the final depth. Run-time errors that depend on values (a zero
      divisor, an integer overflow) are not part of this. */
  function Exit(bs: seq<Block>): Outcome {
    match RunBlocks(bs, InitialDepth)
    case Stopped(h) => Aborted(h)
    case Running(d) => if d == ExpectedDepth then Printed else Aborted(StackTooFull)
  }

  /** The depth guards of the compiled program pass and its footer finds one
      value exactly when the RPN machine runs the instructions without
      underflow and ends with one value; it stops at `stack_error` on an
      underflow and at `stack_too_full` when another number of values is
      left. The value-dependent exits are not followed. */
  lemma ProgramOutcome(prog: seq<Instruction>)
    ensures Exit(Blocks(prog)) == match Exec(prog, [])
      case None => Aborted(StackError)
      case Some(s) => if |s| == 1 then Printed else Aborted(StackTooFull)
  {
    DepthFollowsStack(prog);
  }

  /** Labels are defined once in the whole program: no two blocks share a
      label, and no block label is `main` or a footer label. */
  lemma ProgramLabelsUnique(order: seq<string>, debug: bool, prog: seq<Instruction>)
    ensures var p := Layout(order, debug, prog);
      && (forall i, j | 0 <= i < |p.body| && 0 <= j < |p.body| && i != j :: Labels(p.body[i]) !! Labels(p.body[j]))
      && (forall i | 0 <= i < |p.body| :: Labels(p.body[i]) !! (LabelsOf(p.prologue) + LabelsOf(p.footer)))
      && LabelsOf(p.prologue) !! LabelsOf(p.footer)
  {
    PrologueShape(debug);
    FooterShape();
    BodyLabelsUnique(prog, {"main"} + FooterLabels);
    PartsLabelsUnique(Prologue(debug), Blocks(prog), Footer());
  }

  /** ProgramLabelsUnique for the three parts, once their labels are known. */
  lemma PartsLabelsUnique(prologue: seq<Op>, bs: seq<Block>, footer: seq<Op>)
    requires LabelsOf(prologue) == {"main"} && LabelsOf(footer) == FooterLabels
    requires forall i, j | 0 <= i < |bs| && 0 <= j < |bs| && i != j :: Labels(bs[i]) !! Labels(bs[j])
    requires forall i | 0 <= i < |bs| :: Labels(bs[i]) !! ({"main"} + FooterLabels)
    ensures forall i | 0 <= i < |bs| :: Labels(bs[i]) !! (LabelsOf(prologue) + LabelsOf(footer))
    ensures LabelsOf(prologue) !! LabelsOf(footer)
  {
  }

  /** The blocks' labels against each other and against `main` and the
      footer's labels. */
  lemma BodyLabelsUnique(prog: seq<Instruction>, fixed: set<string>)
    requires fixed == {"main"} + FooterLabels
    ensures var bs := Blocks(prog);
      && (forall i, j | 0 <= i < |bs| && 0 <= j < |bs| && i != j :: Labels(bs[i]) !! Labels(bs[j]))
      && (forall i | 0 <= i < |bs| :: Labels(bs[i]) !! fixed)
  {
    var bs := Blocks(prog);
    forall i, j | 0 <= i < |bs| && 0 <= j < |bs|
      ensures i != j ==> Labels(bs[i]) !! Labels(bs[j])
      ensures Labels(bs[i]) !! fixed
    {
      LabelsUnique(i, j, prog[i], prog[j]);
    }
  }

  /** Every jump of the program lands on a label it defines: a block's own
      label or a footer handler. */
  lemma ProgramJumpsClosed(order: seq<string>, debug: bool, prog: seq<Instruction>)
    ensures var p := Layout(order, debug, prog);
      && (forall i | 0 <= i < |p.body| :: Targets(p.body[i]) <= Labels(p.body[i]) + LabelsOf(p.footer))
      && TargetsOf(p.footer) <= LabelsOf(p.footer)
      && TargetsOf(p.prologue) == {}
  {
    var p := Layout(order, debug, prog);
    PrologueShape(debug);
    FooterShape();
    forall i | 0 <= i < |p.body|
      ensures Targets(p.body[i]) <= Labels(p.body[i]) + LabelsOf(p.footer)
    {
      JumpsClosed(i, prog[i]);
    }
  }

  /** A symbol of the fixed data section. */
  predicate FixedSymbol(s: string) {
    exists k | 0 <= k < |FixedData| :: FixedData[k].symbol == s
  }

  /** No constant's symbol is a symbol of the fixed data. */
  lemma ConstantNotFixed(v: string)
    requires Lexer.NumberLiteral(v)
    ensures !FixedSymbol(EscapeConstant(v))
  {
    var sym := EscapeConstant(v);
    EscapePrefix(v);
    assert sym[0] == 'c' by {
      assert sym[..6][0] == sym[0];
    }
  }

  /** The constants' symbols never clash with the fixed data, and two
      constants share a symbol only if one is the other with a minus sign
      in front of a zero. */
  lemma ConstantSymbols(order: seq<string>)
    requires forall k | 0 <= k < |order| :: Lexer.NumberLiteral(order[k])
    ensures forall k | 0 <= k < |order| :: !FixedSymbol(ConstantsData(order)[k].symbol)
    ensures forall i, j | 0 <= i < |order| && 0 <= j < |order| ::
      ConstantsData(order)[i].symbol == ConstantsData(order)[j].symbol <==>
        order[i] == order[j] || NegativeZeroOf(order[i], order[j]) || NegativeZeroOf(order[j], order[i])
  {
    var ds := ConstantsData(order);
    forall k | 0 <= k < |order| ensures !FixedSymbol(ds[k].symbol) {
      ConstantNotFixed(order[k]);
    }
    forall i, j | 0 <= i < |order| && 0 <= j < |order| ensures
      ds[i].symbol == ds[j].symbol <==>
        order[i] == order[j] || NegativeZeroOf(order[i], order[j]) || NegativeZeroOf(order[j], order[i])
    {
      EscapeInjective(order[i], order[j]);
    }
  }
}
