/** The code generator of compiler/generator.go: one block of assembly per
    instruction.

    A block is kept as structured lines rather than one string: comment and
    instruction lines, label definitions and jumps. The bookkeeping of the
    run-time depth counter, which every template repeats, is held apart as
    the block's `need` (the depth checked before the block runs; 0 for no
    check) and `delta` (the change made at its end). The templates hold
    placeholders (`#ID`, `#VALUE`, `#ESCAPED`) as explicit holes, and `Fill`
    substitutes them; `GenIsReplace` shows that this is the same text
    as `strings.Replace` on the rendered template. */
module Generator {
  import opened Instructions
  import opened Strings
  import opened Escape
  import Lexer

  const ID := "#ID"
  const VALUE := "#VALUE"
  const ESCAPED := "#ESCAPED"

  predicate IsPlaceholder(name: string) {
    name == ID || name == VALUE || name == ESCAPED
  }

  /** A field of a template line: plain text, or text around a placeholder. */
  datatype Field = Text(text: string) | Hole(before: string, name: string, after: string)

  /** A line of a block. */
  datatype Op =
    | Note(note: Field)
    | Asm(instr: Field)
    | Label(defines: Field)
    | Jump(mnemonic: string, target: Field)

  /** A generated block: its marker comment, the depth it checks for, its
      lines and the change it makes to the depth counter. */
  datatype Block = Block(marker: string, need: nat, code: seq<Op>, delta: int)

  // ---------------------------------------------------------------------
  // Substitution

  function FillField(f: Field, name: string, rep: string): Field {
    if f.Hole? && f.name == name then Text(f.before + rep + f.after) else f
  }

  function FillOp(op: Op, name: string, rep: string): Op {
    match op
    case Note(f) => Note(FillField(f, name, rep))
    case Asm(f) => Asm(FillField(f, name, rep))
    case Label(f) => Label(FillField(f, name, rep))
    case Jump(m, f) => Jump(m, FillField(f, name, rep))
  }

  /** Substitutes `rep` for the placeholder `name` in every line. */
  function Fill(ops: seq<Op>, name: string, rep: string): seq<Op> {
    seq(|ops|, k requires 0 <= k < |ops| => FillOp(ops[k], name, rep))
  }

  // ---------------------------------------------------------------------
  // Rendering

  function FieldText(f: Field): string {
    match f
    case Text(t) => t
    case Hole(b, n, a) => b + n + a
  }

  function OpText(op: Op): string {
    match op
    case Note(f) => Indent + "# " + FieldText(f) + "\n"
    case Asm(f) => Indent + FieldText(f) + "\n"
    case Label(f) => FieldText(f) + ":\n"
    case Jump(m, f) => Indent + m + " " + FieldText(f) + "\n"
  }

  function CodeText(ops: seq<Op>): string
    decreases |ops|
  {
    if ops == [] then "" else OpText(ops[0]) + CodeText(ops[1..])
  }

  /** The depth check at the top of a block: jump to `stack_error` when the
      counter is below `need`. */
  function GuardText(need: nat): string {
    if need == 0 then ""
    else
      Indent + GuardLoad + Indent + GuardCompare + Dec(need) + "\n"
      + Indent + GuardJump + StackError + "\n"
  }

  /** The depth update at the end of a block. */
  function DeltaText(delta: int): string {
    if delta > 0 then Indent + "inc qword ptr [depth]\n"
    else if delta < 0 then Indent + "dec qword ptr [depth]\n"
    else ""
  }

  function BlockText(b: Block): string {
    "\n" + Indent + "# [" + b.marker + "]\n" + GuardText(b.need) + CodeText(b.code) + DeltaText(b.delta)
  }

  // ---------------------------------------------------------------------
  // Well-formed templates

  predicate FieldOK(f: Field) {
    match f
    case Text(t) => '#' !in t
    case Hole(b, n, a) => '#' !in b && '#' !in a && IsPlaceholder(n)
  }

  predicate OpOK(op: Op) {
    match op
    case Note(f) => FieldOK(f)
    case Asm(f) => FieldOK(f)
    case Label(f) => FieldOK(f)
    case Jump(m, f) => '#' !in m && FieldOK(f)
  }

  /** Every line is well formed: placeholders occur only as holes. */
  predicate CodeOK(ops: seq<Op>) {
    forall op | op in ops :: OpOK(op)
  }

  /** Straight-line instructions without placeholders. */
  predicate Plain(ops: seq<Op>) {
    forall op | op in ops :: op.Asm? && op.instr.Text? && '#' !in op.instr.text
  }

  /** Text without placeholders. */
  type Chunk = s: string | '#' !in s

  function T(s: Chunk): (f: Field)
    ensures FieldOK(f)
  {
    Text(s)
  }

  function I(s: Chunk): (op: Op)
    ensures OpOK(op)
  {
    Asm(Text(s))
  }

  function Go(mnemonic: Chunk, target: Field): (op: Op)
    requires FieldOK(target)
    ensures OpOK(op)
  {
    Jump(mnemonic, target)
  }

  function Around(before: Chunk, name: string, after: Chunk): (f: Field)
    requires IsPlaceholder(name)
    ensures FieldOK(f)
  {
    Hole(before, name, after)
  }

  function At(f: Field): (op: Op)
    requires FieldOK(f)
    ensures OpOK(op)
  {
    Label(f)
  }

  // ---------------------------------------------------------------------
  // The text the templates are made of

  const Indent: Chunk := "        "

  /** Labels defined in the footer; blocks jump to them on errors. */
  const StackError: Chunk := "stack_error"
  const StackTooFull: Chunk := "stack_too_full"
  const DivisionByZero: Chunk := "division_by_zero"
  const RegisterOverflow: Chunk := "register_overflow"
  const PrintMsgAndExit: Chunk := "print_msg_and_exit"

  /** The stems of the labels inside the power and factorial blocks. */
  const NoneZero: Chunk := "none_zero_"
  const NoneOne: Chunk := "none_one_"
  const Again: Chunk := "again_"
  const StoreValue: Chunk := "store_value_"
  const StoreResult: Chunk := "store_result_"

  /** Instruction lines that several templates share. */
  const PopRax: Chunk := "pop rax"
  const PopRbx: Chunk := "pop rbx"
  const PushRax: Chunk := "push rax"
  const PushRbx: Chunk := "push rbx"
  const MovARax: Chunk := "mov qword ptr [a], rax"
  const MovBRax: Chunk := "mov qword ptr [b], rax"
  /** The power and factorial templates write this one without a space. */
  const MovARaxTight: Chunk := "mov qword ptr[a], rax"
  const MovRaxA: Chunk := "mov rax, qword ptr [a]"
  const MovRaxB: Chunk := "mov rax, qword ptr [b]"
  const MovRbxA: Chunk := "mov rbx, qword ptr [a]"
  const MovRaxInt: Chunk := "mov rax, qword ptr [int]"
  const FldA: Chunk := "fld qword ptr [a]"
  const FldB: Chunk := "fld qword ptr [b]"
  const FildA: Chunk := "fild qword ptr [a]"
  const FstpA: Chunk := "fstp qword ptr [a]"
  const FstpInt: Chunk := "fstp qword ptr [int]"
  const FistpA: Chunk := "fistp qword ptr [a]"
  const FistpB: Chunk := "fistp qword ptr [b]"
  const Frndint: Chunk := "frndint"
  const CmpRax0: Chunk := "cmp rax,0"
  const FdivA: Chunk := "fdiv qword ptr  [a]"
  const DivRbx: Chunk := "div rbx"
  const MovRcxA: Chunk := "mov rcx, qword ptr [a]"
  const MovRcxRax: Chunk := "mov rcx, rax"
  const MovAZeroTight: Chunk := "mov qword ptr[a], 0"
  const DecRbx: Chunk := "dec rbx"

  /** The lines of the depth check. */
  const GuardLoad: Chunk := "mov rax, qword ptr [depth]\n"
  const GuardCompare: Chunk := "cmp rax, "
  const GuardJump: Chunk := "jb "

  // ---------------------------------------------------------------------
  // Shared phrases of the templates

  function PopA(): (ops: seq<Op>)
    ensures Plain(ops)
  {
    [I(PopRax), I(MovARax)]
  }

  function PopB(): (ops: seq<Op>)
    ensures Plain(ops)
  {
    [I(PopRax), I(MovBRax)]
  }

  /** Pops into [a] and rounds it to an integer. */
  function PopRoundA(): (ops: seq<Op>)
    ensures Plain(ops)
  {
    [I(PopRax), I(MovARax), I(FldA), I(Frndint), I(FistpA)]
  }

  function PopRoundB(): (ops: seq<Op>)
    ensures Plain(ops)
  {
    [I(PopRax), I(MovBRax), I(FldB), I(Frndint), I(FistpB)]
  }

  /** Pushes [a] back onto the stack. */
  function PushA(): (ops: seq<Op>)
    ensures Plain(ops)
  {
    [I(MovRaxA), I(PushRax)]
  }

  /** x87 operation `op` on [a], stored back into [a]. */
  function OnA(op: seq<string>): (ops: seq<Op>)
    requires forall s | s in op :: '#' !in s
    ensures Plain(ops)
  {
    [I(FldA)] + seq(|op|, k requires 0 <= k < |op| => I(op[k])) + [I(FstpA)]
  }

  // ---------------------------------------------------------------------
  // The templates

  /** abs, cos, sin, sqrt and tan: pop one value, apply, push the result. */
  function UnaryCode(op: seq<string>): (ops: seq<Op>)
    requires forall s | s in op :: '#' !in s
    ensures Plain(ops)
  {
    PopA() + OnA(op) + PushA()
  }

  /** plus, minus and multiply: [a] is the top value, [b] the one below. */
  function BinaryCode(load: string, op: string): (ops: seq<Op>)
    requires '#' !in load && '#' !in op
    ensures Plain(ops)
  {
    PopA() + PopB() + [I(load), I(op), I(FstpA)] + PushA()
  }

  function PlusCode(): seq<Op> {
    BinaryCode(FldA, "fadd qword ptr  [b]")
  }

  function MinusCode(): seq<Op> {
    BinaryCode(FldB, "fsub qword ptr  [a]")
  }

  function MultiplyCode(): seq<Op> {
    BinaryCode(FldA, "fmul qword ptr  [b]")
  }

  /** The divisor is popped and compared with zero first. */
  function DivideCheck(): (ops: seq<Op>)
    ensures CodeOK(ops) && Confined(ops, [], [DivisionByZero])
  {
    [I(PopRax), I(CmpRax0), Go("je", T(DivisionByZero)), I(MovARax)]
  }

  function DivideRest(): (ops: seq<Op>)
    ensures Plain(ops)
  {
    PopB() + [I(FldB), I(FdivA), I(FstpA)] + PushA()
  }

  /** Division checks the popped divisor for zero before dividing. */
  function DivideCode(): (ops: seq<Op>)
    ensures CodeOK(ops) && Confined(ops, [], [DivisionByZero])
  {
    PlainConfined(DivideRest(), [], [DivisionByZero]);
    ConfinedAppend(DivideCheck(), DivideRest(), [], [DivisionByZero]);
    DivideCheck() + DivideRest()
  }

  /** Stores the integer in `reg` through [a] as a double and pushes it. */
  function StoreInt(reg: string): (ops: seq<Op>)
    requires '#' !in reg
    ensures Plain(ops)
  {
    [I("mov qword ptr[a], " + reg), I(FildA), I(FstpA), I(MovRaxA), I(PushRax)]
  }

  /** Integer remainder with `div`; there is no check on the divisor. */
  function ModulusCode(): (ops: seq<Op>)
    ensures Plain(ops)
  {
    PopRoundA() + PopRoundB()
    + [I(MovRaxB), I(MovRbxA), I("xor rdx, rdx"), I("cqo"), I(DivRbx)]
    + StoreInt("rdx")
  }

  function SwapCode(): (ops: seq<Op>)
    ensures Plain(ops)
  {
    [I(PopRax), I(PopRbx), I(PushRax), I(PushRbx)]
  }

  function DupCode(): (ops: seq<Op>)
    ensures Plain(ops)
  {
    [I(PopRax), I(PushRax), I(PushRax)]
  }

  /** A label or jump target carrying the instruction index. */
  function Indexed(stem: Chunk): (f: Field)
    ensures FieldOK(f)
  {
    Hole(stem, ID, "")
  }

  /** The stems of the labels of the power and factorial templates. */
  const PowerStems: seq<string> := [NoneZero, NoneOne, Again, StoreValue]
  const FactorialStems: seq<string> := [Again, StoreResult]

  /** Labels stay within `stems` and jumps go to `stems` or `handlers`. */
  predicate Confined(ops: seq<Op>, stems: seq<string>, handlers: seq<string>) {
    && (forall op | op in ops && op.Label? :: op.defines.Hole? && op.defines.name == ID && op.defines.after == [] && op.defines.before in stems)
    && (forall op | op in ops && op.Jump? ::
          (op.target.Hole? && op.target.name == ID && op.target.after == [] && op.target.before in stems)
          || (op.target.Text? && op.target.text in handlers))
  }

  lemma PlainConfined(ops: seq<Op>, stems: seq<string>, handlers: seq<string>)
    requires Plain(ops)
    ensures CodeOK(ops) && Confined(ops, stems, handlers)
  {
  }

  lemma ConfinedAppend(a: seq<Op>, b: seq<Op>, stems: seq<string>, handlers: seq<string>)
    requires Confined(a, stems, handlers) && Confined(b, stems, handlers)
    ensures Confined(a + b, stems, handlers)
  {
  }

  /** Power: pop the exponent into [a] and the base into [b], both rounded,
      then load them into rbx and rax. */
  function PowerLoad(): (ops: seq<Op>)
    ensures Plain(ops)
  {
    PopRoundA() + PopRoundB() + [I(MovRaxB), I(MovRbxA)]
  }

  /** Power, exponent 0: the result is zero. */
  function PowerZeroCase(): (ops: seq<Op>)
    ensures CodeOK(ops) && Confined(ops, PowerStems, [RegisterOverflow])
  {
    [I("cmp rbx, 0"), Go("jne", Indexed(NoneZero)), I("fldz"), Go("jmp", Indexed(StoreValue)),
     At(Indexed(NoneZero))]
  }

  /** Power, exponent 1: the result is the base. */
  function PowerOneCase(): (ops: seq<Op>)
    ensures CodeOK(ops) && Confined(ops, PowerStems, [RegisterOverflow])
  {
    [I("cmp rbx, 1"), Go("jne", Indexed(NoneOne)), I(MovARaxTight), I(FildA),
     Go("jmp", Indexed(StoreValue)), At(Indexed(NoneOne))]
  }

  /** Power, exponent n >= 2: multiply the base in n - 1 times. */
  function PowerLoop(): (ops: seq<Op>)
    ensures CodeOK(ops) && Confined(ops, PowerStems, [RegisterOverflow])
  {
    [I(MovRcxRax), I(DecRbx), At(Indexed(Again)), I("imul rax,rcx"),
     Go("jo", T(RegisterOverflow)), I(DecRbx), Go("jnz", Indexed(Again))]
  }

  function PowerStore(): (ops: seq<Op>)
    ensures CodeOK(ops) && Confined(ops, PowerStems, [RegisterOverflow])
  {
    [I(MovARaxTight), I(FildA), At(Indexed(StoreValue)), I(FstpA)]
  }

  function PowerCode(): (ops: seq<Op>)
    ensures CodeOK(ops) && Confined(ops, PowerStems, [RegisterOverflow])
  {
    var load := PowerLoad();
    PlainConfined(load, PowerStems, [RegisterOverflow]);
    PlainConfined(PushA(), PowerStems, [RegisterOverflow]);
    ConfinedAppend(load, PowerZeroCase(), PowerStems, [RegisterOverflow]);
    ConfinedAppend(load + PowerZeroCase(), PowerOneCase(), PowerStems, [RegisterOverflow]);
    ConfinedAppend(load + PowerZeroCase() + PowerOneCase(), PowerLoop(), PowerStems, [RegisterOverflow]);
    ConfinedAppend(load + PowerZeroCase() + PowerOneCase() + PowerLoop(), PowerStore(), PowerStems, [RegisterOverflow]);
    ConfinedAppend(load + PowerZeroCase() + PowerOneCase() + PowerLoop() + PowerStore(), PushA(), PowerStems, [RegisterOverflow]);
    load + PowerZeroCase() + PowerOneCase() + PowerLoop() + PowerStore() + PushA()
  }

  /** Factorial, n <= 0: the result is zero. */
  function FactorialStart(): (ops: seq<Op>)
    ensures CodeOK(ops) && Confined(ops, FactorialStems, [RegisterOverflow])
  {
    [I(MovRcxA), I("mov rax,1"), I("cmp rcx, 0"), Go("jg", Indexed(Again)),
     I(MovAZeroTight), Go("jmp", Indexed(StoreResult))]
  }

  /** Factorial, n > 0: multiply n, n - 1, ..., 1 together. */
  function FactorialLoop(): (ops: seq<Op>)
    ensures CodeOK(ops) && Confined(ops, FactorialStems, [RegisterOverflow])
  {
    [At(Indexed(Again)), I("imul rax, rcx"), Go("jo", T(RegisterOverflow)), I("dec rcx"),
     Go("jnz", Indexed(Again))]
  }

  function FactorialStore(): (ops: seq<Op>)
    ensures CodeOK(ops) && Confined(ops, FactorialStems, [RegisterOverflow])
  {
    StoreInt("rax")[..4] + [At(Indexed(StoreResult))]
  }

  function FactorialCode(): (ops: seq<Op>)
    ensures CodeOK(ops) && Confined(ops, FactorialStems, [RegisterOverflow])
  {
    PlainConfined(PopRoundA(), FactorialStems, [RegisterOverflow]);
    PlainConfined(PushA(), FactorialStems, [RegisterOverflow]);
    ConfinedAppend(PopRoundA(), FactorialStart(), FactorialStems, [RegisterOverflow]);
    ConfinedAppend(PopRoundA() + FactorialStart(), FactorialLoop(), FactorialStems, [RegisterOverflow]);
    ConfinedAppend(PopRoundA() + FactorialStart() + FactorialLoop(), FactorialStore(), FactorialStems, [RegisterOverflow]);
    ConfinedAppend(PopRoundA() + FactorialStart() + FactorialLoop() + FactorialStore(), PushA(), FactorialStems, [RegisterOverflow]);
    PopRoundA() + FactorialStart() + FactorialLoop() + FactorialStore() + PushA()
  }

  const DepthNoteHead: Chunk := "Increase the value stored at [depth]"
  const DepthNoteTail: Chunk := " to note we've a new stack-entry"

  function DepthNote(): (f: Field)
    ensures FieldOK(f)
  {
    T(DepthNoteHead + DepthNoteTail)
  }

  /** The push template: #VALUE appears in a comment, #ESCAPED is the
      symbol that is loaded. */
  function PushCode(): (ops: seq<Op>)
    ensures CodeOK(ops) && Confined(ops, [], [])
  {
    [Note(Around("Load the value ", VALUE, " onto the stack")), Note(DepthNote()),
     Asm(Around("fld qword ptr ", ESCAPED, "")), I(FstpInt), I(MovRaxInt), I(PushRax)]
  }

  // ---------------------------------------------------------------------
  // The generator

  /** The name in the marker comment that opens each block. */
  function Marker(k: InstructionType): Chunk {
    match k
    case Push => "PUSH"
    case Plus => "PLUS"
    case Minus => "MINUS"
    case Multiply => "MULTIPLY"
    case Divide => "DIVIDE"
    case Power => "POWER"
    case Modulus => "MODULUS"
    case Abs => "ABS"
    case Sin => "SIN"
    case Cos => "COS"
    case Tan => "TAN"
    case Sqrt => "SQRT"
    case Swap => "SWAP"
    case Dup => "DUP"
    case Factorial => "FACTORIAL"
  }

  /** The operand of the depth check (`cmp rax, N`) of each template; 0 for
      the push template, which has none. */
  function Need(k: InstructionType): nat {
    match k
    case Push => 0
    case Abs | Sin | Cos | Tan | Sqrt | Factorial | Dup => 1
    case Plus | Minus | Multiply | Divide | Power | Modulus | Swap => 2
  }

  /** The depth update at the end of each template: `inc`, `dec` or none. */
  function Delta(k: InstructionType): int {
    match k
    case Push | Dup => 1
    case Plus | Minus | Multiply | Divide | Power | Modulus => -1
    case Abs | Sin | Cos | Tan | Sqrt | Factorial | Swap => 0
  }

  /** The template of each generator function, placeholders unfilled. */
  function Template(k: InstructionType): seq<Op> {
    match k
    case Abs => UnaryCode(["fabs"])
    case Cos => UnaryCode(["fcos"])
    case Sin => UnaryCode(["fsin"])
    case Sqrt => UnaryCode(["fsqrt"])
    case Tan => UnaryCode(["fsincos", "fdivr %st(0),st(1)"])
    case Plus => PlusCode()
    case Minus => MinusCode()
    case Multiply => MultiplyCode()
    case Divide => DivideCode()
    case Modulus => ModulusCode()
    case Power => PowerCode()
    case Factorial => FactorialCode()
    case Swap => SwapCode()
    case Dup => DupCode()
    case Push => PushCode()
  }

  /** The template as one block of text: the model's rendering of the Go
      template, without its comments and alignment. */
  function TemplateText(k: InstructionType): string {
    BlockText(Block(Marker(k), Need(k), Template(k), Delta(k)))
  }

  /** The lines of the block for instruction `ins` at index `i` of the
      program, with the placeholders filled. */
  function Code(i: nat, ins: Instruction): seq<Op> {
    match ins.kind
    case Power => Fill(Template(Power), ID, Dec(i))
    case Factorial => Fill(Template(Factorial), ID, Dec(i))
    case Push => Fill(Fill(Template(Push), VALUE, ins.value), ESCAPED, EscapeConstant(ins.value))
    case _ => Template(ins.kind)
  }

  /** The block generated for instruction `ins` at index `i`. */
  function Gen(i: nat, ins: Instruction): Block {
    Block(Marker(ins.kind), Need(ins.kind), Code(i, ins), Delta(ins.kind))
  }

  /** The text a generator function returns: `genPower` and `genFactorial`
      replace `#ID` by the index, `genPush` replaces `#VALUE` by the literal
      and then `#ESCAPED` by its symbol, and the rest return their template. */
  function GenText(i: nat, ins: Instruction): string {
    var t := TemplateText(ins.kind);
    match ins.kind
    case Power => ReplaceAll(t, ID, Dec(i))
    case Factorial => ReplaceAll(t, ID, Dec(i))
    case Push => ReplaceAll(ReplaceAll(t, VALUE, ins.value), ESCAPED, EscapeConstant(ins.value))
    case _ => t
  }

  /** The depth contract of every block: it checks for as many entries as
      the instruction pops and changes the counter by pushes minus pops. */
  lemma DepthContract(k: InstructionType)
    ensures Need(k) == k.Pops()
    ensures Delta(k) == k.Pushes() - k.Pops()
  {
    match k
    case Push =>
    case Plus =>
    case Minus =>
    case Multiply =>
    case Divide =>
    case Power =>
    case Modulus =>
    case Abs =>
    case Sin =>
    case Cos =>
    case Tan =>
    case Sqrt =>
    case Swap =>
    case Dup =>
    case Factorial =>
  }

  // ---------------------------------------------------------------------
  // Filling holes is textual replacement

  lemma PlaceholderShape(n: string)
    requires IsPlaceholder(n)
    ensures |n| >= 3 && n[0] == '#' && '#' !in n[1..] && '\n' !in n && n[1] != ' '
  {
  }

  /** Placeholders differ in their second character. */
  lemma PlaceholdersDiffer(n: string, m: string)
    requires IsPlaceholder(n) && IsPlaceholder(m) && n != m
    ensures n[1] != m[1]
  {
  }

  /** A `#` followed by a character that does not continue the pattern is
      copied. */
  lemma SkipHash(c: char, t: string, pat: string, rep: string)
    requires |pat| >= 2 && pat[0] == '#' && c != '#' && c != pat[1]
    ensures ReplaceAll(['#', c] + t, pat, rep) == ['#', c] + ReplaceAll(t, pat, rep)
  {
    var s := ['#', c] + t;
    if |s| >= |pat| {
      assert s[..|pat|][1] == c;
      assert s[1..] == [c] + t;
      ReplaceAfterFree([c], t, pat, rep);
    }
  }

  /** The hole being filled: its placeholder becomes `rep`. */
  lemma HoleFillSame(b: string, a: string, name: string, rep: string, tail: string)
    requires '#' !in b && '#' !in a && '#' !in tail && IsPlaceholder(name)
    ensures ReplaceAll(b + name + a + tail, name, rep) == b + rep + a + tail
  {
    PlaceholderShape(name);
    var r := a + tail;
    assert '#' !in r;
    calc {
      ReplaceAll(b + name + a + tail, name, rep);
      { assert b + name + a + tail == b + (name + r); }
      ReplaceAll(b + (name + r), name, rep);
      { ReplaceAfterFree(b, name + r, name, rep); }
      b + ReplaceAll(name + r, name, rep);
      { ReplaceAtFront(r, name, rep); }
      b + (rep + ReplaceAll(r, name, rep));
      { ReplaceAbsent(r, name, rep); }
      b + (rep + r);
      { assert b + (rep + r) == b + rep + a + tail; }
      b + rep + a + tail;
    }
  }

  /** A hole for another placeholder is copied. */
  lemma HoleFillOther(b: string, n: string, a: string, name: string, rep: string, tail: string)
    requires '#' !in b && '#' !in a && '#' !in tail && IsPlaceholder(name) && IsPlaceholder(n) && n != name
    ensures ReplaceAll(b + n + a + tail, name, rep) == b + n + a + tail
  {
    PlaceholderShape(name);
    PlaceholderShape(n);
    PlaceholdersDiffer(n, name);
    var r := n[2..] + a + tail;
    assert '#' !in n[2..] by {
      assert forall x | x in n[2..] :: x in n[1..];
    }
    assert '#' !in r;
    assert n == ['#', n[1]] + n[2..];
    assert b + n + a + tail == b + (['#', n[1]] + r);
    ReplaceAfterFree(b, ['#', n[1]] + r, name, rep);
    SkipHash(n[1], r, name, rep);
    ReplaceAbsent(r, name, rep);
  }

  lemma FieldFill(f: Field, name: string, rep: string, tail: string)
    requires FieldOK(f) && IsPlaceholder(name) && '#' !in tail
    ensures ReplaceAll(FieldText(f) + tail, name, rep) == FieldText(FillField(f, name, rep)) + tail
  {
    PlaceholderShape(name);
    match f
    case Text(t) =>
      ReplaceAbsent(t + tail, name, rep);
    case Hole(b, n, a) =>
      if n == name {
        HoleFillSame(b, a, name, rep, tail);
      } else {
        HoleFillOther(b, n, a, name, rep, tail);
      }
  }

  /** A line indented and followed by a newline. */
  lemma IndentedFill(lead: string, f: Field, name: string, rep: string)
    requires '#' !in lead && FieldOK(f) && IsPlaceholder(name)
    ensures ReplaceAll(lead + FieldText(f) + "\n", name, rep) == lead + FieldText(FillField(f, name, rep)) + "\n"
  {
    PlaceholderShape(name);
    assert lead + FieldText(f) + "\n" == lead + (FieldText(f) + "\n");
    ReplaceAfterFree(lead, FieldText(f) + "\n", name, rep);
    FieldFill(f, name, rep, "\n");
  }

  lemma NoteFill(f: Field, name: string, rep: string)
    requires FieldOK(f) && IsPlaceholder(name)
    ensures ReplaceAll(Indent + "# " + FieldText(f) + "\n", name, rep) == Indent + "# " + FieldText(FillField(f, name, rep)) + "\n"
  {
    PlaceholderShape(name);
    var r := FieldText(f) + "\n";
    var r' := FieldText(FillField(f, name, rep)) + "\n";
    var hr := ['#', ' '] + r;
    assert "# " == ['#', ' '];
    assert Indent + "# " + FieldText(f) + "\n" == Indent + hr;
    assert Indent + "# " + FieldText(FillField(f, name, rep)) + "\n" == Indent + (['#', ' '] + r');
    ReplaceAfterFree(Indent, hr, name, rep);
    SkipHash(' ', r, name, rep);
    FieldFill(f, name, rep, "\n");
  }

  lemma OpFill(op: Op, name: string, rep: string)
    requires OpOK(op) && IsPlaceholder(name)
    ensures ReplaceAll(OpText(op), name, rep) == OpText(FillOp(op, name, rep))
  {
    match op
    case Note(f) => NoteFill(f, name, rep);
    case Asm(f) => IndentedFill(Indent, f, name, rep);
    case Label(f) => FieldFill(f, name, rep, ":\n");
    case Jump(m, f) => IndentedFill(Indent + m + " ", f, name, rep);
  }

  lemma OpTextEnds(op: Op)
    ensures |OpText(op)| > 0 && OpText(op)[|OpText(op)| - 1] == '\n'
  {
  }

  lemma {:induction false} CodeTextEnds(ops: seq<Op>)
    requires ops != []
    ensures |CodeText(ops)| > 0 && CodeText(ops)[|CodeText(ops)| - 1] == '\n'
    decreases |ops|
  {
    OpTextEnds(ops[0]);
    if ops[1..] != [] {
      CodeTextEnds(ops[1..]);
    }
  }

  lemma {:induction false} CodeFill(ops: seq<Op>, name: string, rep: string)
    requires CodeOK(ops) && IsPlaceholder(name)
    ensures ReplaceAll(CodeText(ops), name, rep) == CodeText(Fill(ops, name, rep))
    decreases |ops|
  {
    if ops != [] {
      PlaceholderShape(name);
      var filled := Fill(ops, name, rep);
      assert filled[0] == FillOp(ops[0], name, rep);
      assert filled[1..] == Fill(ops[1..], name, rep);
      OpTextEnds(ops[0]);
      ReplaceSplit(OpText(ops[0]), CodeText(ops[1..]), name, rep);
      OpFill(ops[0], name, rep);
      CodeFill(ops[1..], name, rep);
    }
  }

  lemma DecHashFree(n: nat)
    ensures '#' !in Dec(n)
  {
    var d := Dec(n);
    assert forall k | 0 <= k < |d| :: Lexer.IsDigit(d[k]);
  }

  /** The part of a block before its lines. */
  function HeadText(b: Block): string {
    "\n" + Indent + "# [" + b.marker + "]\n" + GuardText(b.need)
  }

  lemma GuardHashFree(need: nat)
    ensures '#' !in GuardText(need)
    ensures GuardText(need) == [] || GuardText(need)[|GuardText(need)| - 1] == '\n'
  {
    if need > 0 {
      DecHashFree(need);
    }
  }

  lemma HeadUnchanged(b: Block, name: string, rep: string)
    requires '#' !in b.marker && IsPlaceholder(name)
    ensures ReplaceAll(HeadText(b), name, rep) == HeadText(b)
    ensures |HeadText(b)| > 0 && HeadText(b)[|HeadText(b)| - 1] == '\n'
  {
    PlaceholderShape(name);
    GuardHashFree(b.need);
    var g := GuardText(b.need);
    var rest := "[" + b.marker + "]\n" + g;
    assert '#' !in rest;
    assert "# [" == ['#', ' '] + "[";
    assert HeadText(b) == ("\n" + Indent) + (['#', ' '] + rest);
    ReplaceAfterFree("\n" + Indent, ['#', ' '] + rest, name, rep);
    SkipHash(' ', rest, name, rep);
    ReplaceAbsent(rest, name, rep);
  }

  lemma BodyFill(ops: seq<Op>, delta: int, name: string, rep: string)
    requires CodeOK(ops) && IsPlaceholder(name)
    ensures ReplaceAll(CodeText(ops) + DeltaText(delta), name, rep) == CodeText(Fill(ops, name, rep)) + DeltaText(delta)
  {
    PlaceholderShape(name);
    var d := DeltaText(delta);
    ReplaceAbsent(d, name, rep);
    CodeFill(ops, name, rep);
    if ops == [] {
      assert CodeText(ops) + d == d;
      assert Fill(ops, name, rep) == [];
    } else {
      CodeTextEnds(ops);
      ReplaceSplit(CodeText(ops), d, name, rep);
    }
  }

  /** Filling a hole in a block's lines is replacing the placeholder in the
      block's text. */
  lemma BlockFill(b: Block, name: string, rep: string)
    requires CodeOK(b.code) && '#' !in b.marker && IsPlaceholder(name)
    ensures ReplaceAll(BlockText(b), name, rep) == BlockText(b.(code := Fill(b.code, name, rep)))
  {
    PlaceholderShape(name);
    var b' := b.(code := Fill(b.code, name, rep));
    var tail := CodeText(b.code) + DeltaText(b.delta);
    assert BlockText(b) == HeadText(b) + tail;
    assert BlockText(b') == HeadText(b) + (CodeText(b'.code) + DeltaText(b.delta));
    HeadUnchanged(b, name, rep);
    ReplaceSplit(HeadText(b), tail, name, rep);
    BodyFill(b.code, b.delta, name, rep);
  }

  /** Filling with text free of `#` leaves the lines well formed. */
  lemma FillOK(ops: seq<Op>, name: string, rep: string)
    requires CodeOK(ops) && '#' !in rep
    ensures CodeOK(Fill(ops, name, rep))
  {
    forall op | op in Fill(ops, name, rep)
      ensures OpOK(op)
    {
      var k :| 0 <= k < |ops| && Fill(ops, name, rep)[k] == op;
      assert ops[k] in ops;
    }
  }

  /** Filling the holes of the structured block gives the text that
      `strings.Replace` makes of the template text (the model's comment-free
      rendering of the Go template). */
  lemma GenIsReplace(i: nat, ins: Instruction)
    requires '#' !in ins.value
    ensures BlockText(Gen(i, ins)) == GenText(i, ins)
  {
    match ins.kind
    case Power => PowerIsReplace(i, ins);
    case Factorial => FactorialIsReplace(i, ins);
    case Push => PushIsReplace(i, ins);
    case _ => TemplateIsText(i, ins);
  }

  /** Blocks without placeholders are their template's text. */
  lemma TemplateIsText(i: nat, ins: Instruction)
    requires ins.kind != Power && ins.kind != Factorial && ins.kind != Push
    ensures BlockText(Gen(i, ins)) == GenText(i, ins)
  {
    var k := ins.kind;
    assert Code(i, ins) == Template(k);
  }

  lemma PowerIsReplace(i: nat, ins: Instruction)
    requires ins.kind == Power
    ensures BlockText(Gen(i, ins)) == GenText(i, ins)
  {
    BlockFill(Block(Marker(Power), Need(Power), PowerCode(), Delta(Power)), ID, Dec(i));
  }

  lemma FactorialIsReplace(i: nat, ins: Instruction)
    requires ins.kind == Factorial
    ensures BlockText(Gen(i, ins)) == GenText(i, ins)
  {
    BlockFill(Block(Marker(Factorial), Need(Factorial), FactorialCode(), Delta(Factorial)), ID, Dec(i));
  }

  lemma PushIsReplace(i: nat, ins: Instruction)
    requires ins.kind == Push && '#' !in ins.value
    ensures BlockText(Gen(i, ins)) == GenText(i, ins)
  {
    var t := Block(Marker(Push), Need(Push), Template(Push), Delta(Push));
    BlockFill(t, VALUE, ins.value);
    var t1 := t.(code := Fill(t.code, VALUE, ins.value));
    FillOK(t.code, VALUE, ins.value);
    BlockFill(t1, ESCAPED, EscapeConstant(ins.value));
  }

  // ---------------------------------------------------------------------
  // No placeholder survives generation

  /** The one field of a line. */
  function FieldOf(op: Op): Field {
    match op
    case Note(f) => f
    case Asm(f) => f
    case Label(f) => f
    case Jump(_, f) => f
  }

  /** Every placeholder left in the lines is one of `names`. */
  predicate HolesNamed(ops: seq<Op>, names: set<string>) {
    forall op | op in ops && FieldOf(op).Hole? :: FieldOf(op).name in names
  }

  /** Lines whose every field is plain text without `#`. */
  predicate Filled(ops: seq<Op>) {
    forall op | op in ops :: FieldOf(op).Text? && '#' !in FieldOf(op).text
  }

  /** The placeholders each generator function replaces. */
  function Placeholders(k: InstructionType): set<string> {
    match k
    case Power | Factorial => {ID}
    case Push => {VALUE, ESCAPED}
    case _ => {}
  }

  lemma HolesAppend(a: seq<Op>, b: seq<Op>, names: set<string>)
    requires HolesNamed(a, names) && HolesNamed(b, names)
    ensures HolesNamed(a + b, names)
  {
  }

  lemma PlainHoles(ops: seq<Op>)
    requires Plain(ops)
    ensures CodeOK(ops) && HolesNamed(ops, {})
  {
  }

  lemma PowerCaseHoles()
    ensures HolesNamed(PowerZeroCase() + PowerOneCase(), {ID})
  {
    assert HolesNamed(PowerZeroCase(), {ID});
    assert HolesNamed(PowerOneCase(), {ID});
    HolesAppend(PowerZeroCase(), PowerOneCase(), {ID});
  }

  lemma PowerLoopHoles()
    ensures HolesNamed(PowerLoop() + PowerStore(), {ID})
  {
    assert HolesNamed(PowerLoop(), {ID});
    assert HolesNamed(PowerStore(), {ID});
    HolesAppend(PowerLoop(), PowerStore(), {ID});
  }

  lemma PowerHoles()
    ensures HolesNamed(PowerCode(), {ID})
  {
    var load := PowerLoad();
    var cases := PowerZeroCase() + PowerOneCase();
    var loop := PowerLoop() + PowerStore();
    PlainHoles(load);
    PlainHoles(PushA());
    PowerCaseHoles();
    PowerLoopHoles();
    HolesAppend(load, cases, {ID});
    HolesAppend(load + cases, loop, {ID});
    HolesAppend(load + cases + loop, PushA(), {ID});
    assert PowerCode() == load + cases + loop + PushA();
  }

  lemma FactorialHoles()
    ensures HolesNamed(FactorialCode(), {ID})
  {
    PlainHoles(PopRoundA());
    PlainHoles(PushA());
    PlainHoles(StoreInt("rax"));
    assert HolesNamed(FactorialStart(), {ID});
    assert HolesNamed(FactorialLoop(), {ID});
    assert HolesNamed(FactorialStore(), {ID});
    HolesAppend(PopRoundA(), FactorialStart(), {ID});
    HolesAppend(PopRoundA() + FactorialStart(), FactorialLoop(), {ID});
    HolesAppend(PopRoundA() + FactorialStart() + FactorialLoop(), FactorialStore(), {ID});
    HolesAppend(PopRoundA() + FactorialStart() + FactorialLoop() + FactorialStore(), PushA(), {ID});
  }

  lemma DivideHoles()
    ensures HolesNamed(DivideCode(), {})
  {
    assert HolesNamed(DivideCheck(), {});
    PlainHoles(DivideRest());
    HolesAppend(DivideCheck(), DivideRest(), {});
  }

  /** Each template holds only the placeholders its generator function
      replaces. */
  lemma TemplateHoles(k: InstructionType)
    ensures CodeOK(Template(k)) && HolesNamed(Template(k), Placeholders(k))
  {
    if k == Power {
      PowerHoles();
    } else if k == Factorial {
      FactorialHoles();
    } else if k == Divide {
      DivideHoles();
    } else if k == Push {
      PushHoles();
    } else {
      PlainTemplate(k);
      PlainHoles(Template(k));
    }
  }

  lemma PushHoles()
    ensures HolesNamed(PushCode(), {VALUE, ESCAPED})
  {
  }

  /** The templates without labels, jumps or placeholders. */
  lemma PlainTemplate(k: InstructionType)
    requires k != Power && k != Factorial && k != Push && k != Divide
    ensures Plain(Template(k))
  {
  }

  /** Filling a placeholder with `#`-free text removes it from the lines. */
  lemma FillRemoves(ops: seq<Op>, name: string, rep: string, names: set<string>)
    requires CodeOK(ops) && HolesNamed(ops, names) && '#' !in rep
    ensures CodeOK(Fill(ops, name, rep)) && HolesNamed(Fill(ops, name, rep), names - {name})
  {
    FillOK(ops, name, rep);
    forall op | op in Fill(ops, name, rep) && FieldOf(op).Hole?
      ensures FieldOf(op).name in names - {name}
    {
      var k :| 0 <= k < |ops| && Fill(ops, name, rep)[k] == op;
      assert ops[k] in ops;
    }
  }

  /** Well-formed lines without placeholders are filled. */
  lemma NoHolesFilled(ops: seq<Op>)
    requires CodeOK(ops) && HolesNamed(ops, {})
    ensures Filled(ops)
  {
    forall op | op in ops
      ensures FieldOf(op).Text? && '#' !in FieldOf(op).text
    {
      assert OpOK(op);
    }
  }

  /** Every generated block is free of placeholders: `genPower` and
      `genFactorial` leave no `#ID`, `genPush` no `#VALUE` or `#ESCAPED`,
      and every field of every line is text without `#`. */
  lemma NoPlaceholderLeft(i: nat, ins: Instruction)
    requires '#' !in ins.value
    ensures Filled(Code(i, ins))
  {
    var k := ins.kind;
    TemplateHoles(k);
    match k
    case Power =>
      DecHashFree(i);
      FillRemoves(Template(k), ID, Dec(i), {ID});
      assert {ID} - {ID} == {};
      NoHolesFilled(Code(i, ins));
    case Factorial =>
      DecHashFree(i);
      FillRemoves(Template(k), ID, Dec(i), {ID});
      assert {ID} - {ID} == {};
      NoHolesFilled(Code(i, ins));
    case Push =>
      FillRemoves(Template(k), VALUE, ins.value, {VALUE, ESCAPED});
      assert {VALUE, ESCAPED} - {VALUE} == {ESCAPED};
      EscapeKeeps(ins.value, '#');
      FillRemoves(Fill(Template(k), VALUE, ins.value), ESCAPED, EscapeConstant(ins.value), {ESCAPED});
      assert {ESCAPED} - {ESCAPED} == {};
      NoHolesFilled(Code(i, ins));
    case _ =>
      NoHolesFilled(Code(i, ins));
  }

  // ---------------------------------------------------------------------
  // Labels and jumps

  /** The stems of the labels each template defines, one per label. */
  function Stems(k: InstructionType): seq<string> {
    match k
    case Power => PowerStems
    case Factorial => FactorialStems
    case _ => []
  }

  /** The footer handlers each template jumps to, besides `stack_error`. */
  function Handlers(k: InstructionType): seq<string> {
    match k
    case Divide => [DivisionByZero]
    case Power | Factorial => [RegisterOverflow]
    case _ => []
  }

  /** Every handler label defined in the footer of the program. */
  const FooterLabels: set<string> := {DivisionByZero, RegisterOverflow, StackTooFull, StackError, PrintMsgAndExit}

  function LabelsOf(ops: seq<Op>): set<string> {
    set op | op in ops && op.Label? :: FieldText(op.defines)
  }

  function TargetsOf(ops: seq<Op>): set<string> {
    set op | op in ops && op.Jump? :: FieldText(op.target)
  }

  /** The labels a block defines. */
  function Labels(b: Block): set<string> {
    LabelsOf(b.code)
  }

  /** The labels a block may jump to, its depth check included. */
  function Targets(b: Block): set<string> {
    (if b.need > 0 then {StackError} else {}) + TargetsOf(b.code)
  }

  predicate Defines(ops: seq<Op>, f: Field) {
    exists op | op in ops :: op.Label? && op.defines == f
  }

  predicate JumpsTo(ops: seq<Op>, f: Field) {
    exists op | op in ops :: op.Jump? && op.target == f
  }

  /** Every stem is defined and jumped to, and every handler is jumped to. */
  predicate Complete(ops: seq<Op>, stems: seq<string>, handlers: seq<string>) {
    && (forall s | s in stems :: Defines(ops, Hole(s, ID, "")) && JumpsTo(ops, Hole(s, ID, "")))
    && (forall h | h in handlers :: JumpsTo(ops, Text(h)))
  }

  /** The control-flow phrases of the power template. */
  function PowerControl(): seq<Op> {
    PowerZeroCase() + PowerOneCase() + PowerLoop() + PowerStore()
  }

  lemma PowerHasControl()
    ensures forall op | op in PowerControl() :: op in PowerCode()
  {
    assert PowerCode() == PowerLoad() + PowerControl() + PushA();
  }

  lemma PowerControlComplete()
    ensures Complete(PowerControl(), PowerStems, [RegisterOverflow])
  {
    var c := PowerControl();
    assert c[4] == At(Indexed(NoneZero)) && c[1] == Go("jne", Indexed(NoneZero));
    assert c[10] == At(Indexed(NoneOne)) && c[6] == Go("jne", Indexed(NoneOne));
    assert c[13] == At(Indexed(Again)) && c[17] == Go("jnz", Indexed(Again));
    assert c[20] == At(Indexed(StoreValue)) && c[3] == Go("jmp", Indexed(StoreValue));
    assert c[15] == Go("jo", T(RegisterOverflow));
  }

  lemma PowerComplete()
    ensures Complete(PowerCode(), PowerStems, [RegisterOverflow])
  {
    PowerHasControl();
    PowerControlComplete();
    CompleteWithin(PowerControl(), PowerCode(), PowerStems, [RegisterOverflow]);
  }

  /** Lines that are complete stay complete inside a larger block. */
  lemma CompleteWithin(part: seq<Op>, whole: seq<Op>, stems: seq<string>, handlers: seq<string>)
    requires Complete(part, stems, handlers)
    requires forall op | op in part :: op in whole
    ensures Complete(whole, stems, handlers)
  {
  }

  lemma FactorialComplete()
    ensures Complete(FactorialCode(), FactorialStems, [RegisterOverflow])
  {
    assert At(Indexed(Again)) in FactorialLoop() && Go("jg", Indexed(Again)) in FactorialStart();
    assert Go("jo", T(RegisterOverflow)) in FactorialLoop();
    assert At(Indexed(StoreResult)) in FactorialStore() && Go("jmp", Indexed(StoreResult)) in FactorialStart();
    assert forall s | s in FactorialStems :: s == Again || s == StoreResult;
  }

  lemma DivideComplete()
    ensures Complete(DivideCode(), [], [DivisionByZero])
  {
    assert Go("je", T(DivisionByZero)) in DivideCode();
  }

  /** What each template defines and where it jumps. */
  lemma TemplateShape(k: InstructionType)
    ensures Confined(Template(k), Stems(k), Handlers(k))
    ensures Complete(Template(k), Stems(k), Handlers(k))
  {
    if k == Power {
      PowerComplete();
    } else if k == Factorial {
      FactorialComplete();
    } else if k == Divide {
      DivideComplete();
    } else if k != Push {
      PlainShape(k);
    }
  }

  lemma PlainShape(k: InstructionType)
    requires k != Power && k != Factorial && k != Push && k != Divide
    ensures Confined(Template(k), Stems(k), Handlers(k))
    ensures Complete(Template(k), Stems(k), Handlers(k))
  {
    PlainTemplate(k);
    PlainConfined(Template(k), Stems(k), Handlers(k));
    assert Stems(k) == [] && Handlers(k) == [];
  }

  /** Each filled line comes from a template line ... */
  lemma FillSource(ops: seq<Op>, name: string, rep: string, op: Op) returns (k: nat)
    requires op in Fill(ops, name, rep)
    ensures k < |ops| && op == FillOp(ops[k], name, rep)
  {
    var f := Fill(ops, name, rep);
    k :| 0 <= k < |f| && f[k] == op;
  }

  /** ... and each template line is filled. */
  lemma FillImage(ops: seq<Op>, name: string, rep: string, op: Op)
    requires op in ops
    ensures FillOp(op, name, rep) in Fill(ops, name, rep)
  {
    var k :| 0 <= k < |ops| && ops[k] == op;
    assert Fill(ops, name, rep)[k] == FillOp(op, name, rep);
  }

  /** Lines without holes in their labels and jumps: they are what they
      were. */
  lemma RawShape(ops: seq<Op>, handlers: seq<string>)
    requires Confined(ops, [], handlers) && Complete(ops, [], handlers)
    ensures LabelsOf(ops) == {}
    ensures TargetsOf(ops) == set h | h in handlers
  {
    forall h | h in handlers
      ensures h in TargetsOf(ops)
    {
      var op :| op in ops && op.Jump? && op.target == Text(h);
    }
  }

  /** Filling a placeholder other than in labels and jumps keeps them. */
  lemma FillOtherShape(ops: seq<Op>, name: string, rep: string, handlers: seq<string>)
    requires Confined(ops, [], handlers) && Complete(ops, [], handlers)
    ensures Confined(Fill(ops, name, rep), [], handlers) && Complete(Fill(ops, name, rep), [], handlers)
  {
    var f := Fill(ops, name, rep);
    forall op | op in f
      ensures op.Label? ==> false
      ensures op.Jump? ==> op.target.Text? && op.target.text in handlers
    {
      var k := FillSource(ops, name, rep, op);
      assert ops[k] in ops;
    }
    forall h | h in handlers
      ensures JumpsTo(f, Text(h))
    {
      var op :| op in ops && op.Jump? && op.target == Text(h);
      FillImage(ops, name, rep, op);
    }
  }

  /** The labels with the stems and the index. */
  function Suffixed(stems: seq<string>, d: string): set<string> {
    set s | s in stems :: s + d
  }

  lemma FilledLabelsWithin(ops: seq<Op>, d: string, stems: seq<string>, handlers: seq<string>)
    requires Confined(ops, stems, handlers)
    ensures LabelsOf(Fill(ops, ID, d)) <= Suffixed(stems, d)
  {
    var f := Fill(ops, ID, d);
    forall n | n in LabelsOf(f)
      ensures n in Suffixed(stems, d)
    {
      var op :| op in f && op.Label? && FieldText(op.defines) == n;
      var k := FillSource(ops, ID, d, op);
      assert ops[k] in ops;
      var s := ops[k].defines.before;
      assert s in stems;
      assert n == s + d + "";
      assert s + d + "" == s + d;
    }
  }

  lemma FilledLabelsCover(ops: seq<Op>, d: string, stems: seq<string>, handlers: seq<string>)
    requires Complete(ops, stems, handlers)
    ensures Suffixed(stems, d) <= LabelsOf(Fill(ops, ID, d))
  {
    var f := Fill(ops, ID, d);
    forall n | n in Suffixed(stems, d)
      ensures n in LabelsOf(f)
    {
      var s :| s in stems && n == s + d;
      var op :| op in ops && op.Label? && op.defines == Hole(s, ID, "");
      FillImage(ops, ID, d, op);
      assert FieldText(FillOp(op, ID, d).defines) == s + d + "";
      assert s + d + "" == n;
    }
  }

  lemma FilledTargetsWithin(ops: seq<Op>, d: string, stems: seq<string>, handlers: seq<string>)
    requires Confined(ops, stems, handlers)
    ensures TargetsOf(Fill(ops, ID, d)) <= Suffixed(stems, d) + set h | h in handlers
  {
    var f := Fill(ops, ID, d);
    forall n | n in TargetsOf(f)
      ensures n in Suffixed(stems, d) || n in handlers
    {
      var op :| op in f && op.Jump? && FieldText(op.target) == n;
      var k := FillSource(ops, ID, d, op);
      var src := ops[k];
      assert src in ops && src.Jump?;
      if src.target.Hole? {
        var s := src.target.before;
        assert s in stems;
        assert n == s + d + "";
        assert s + d + "" == s + d;
      } else {
        assert n == src.target.text;
      }
    }
  }

  lemma FilledTargetsCover(ops: seq<Op>, d: string, stems: seq<string>, handlers: seq<string>)
    requires Complete(ops, stems, handlers)
    ensures Suffixed(stems, d) + (set h | h in handlers) <= TargetsOf(Fill(ops, ID, d))
  {
    var f := Fill(ops, ID, d);
    forall n | n in Suffixed(stems, d)
      ensures n in TargetsOf(f)
    {
      var s :| s in stems && n == s + d;
      var op :| op in ops && op.Jump? && op.target == Hole(s, ID, "");
      FillImage(ops, ID, d, op);
      assert FieldText(FillOp(op, ID, d).target) == s + d + "";
      assert s + d + "" == n;
    }
    forall h | h in handlers
      ensures h in TargetsOf(f)
    {
      var op :| op in ops && op.Jump? && op.target == Text(h);
      FillImage(ops, ID, d, op);
    }
  }

  /** Filling `#ID` with `d` turns each stem into the label stem + d. */
  lemma FillIndexedShape(ops: seq<Op>, d: string, stems: seq<string>, handlers: seq<string>)
    requires Confined(ops, stems, handlers) && Complete(ops, stems, handlers)
    ensures LabelsOf(Fill(ops, ID, d)) == Suffixed(stems, d)
    ensures TargetsOf(Fill(ops, ID, d)) == Suffixed(stems, d) + set h | h in handlers
  {
    FilledLabelsWithin(ops, d, stems, handlers);
    FilledLabelsCover(ops, d, stems, handlers);
    FilledTargetsWithin(ops, d, stems, handlers);
    FilledTargetsCover(ops, d, stems, handlers);
  }

  lemma PushShape(i: nat, ins: Instruction)
    requires ins.kind == Push
    ensures LabelsOf(Code(i, ins)) == {} && TargetsOf(Code(i, ins)) == {}
  {
    TemplateShape(Push);
    FillOtherShape(Template(Push), VALUE, ins.value, []);
    var f := Fill(Template(Push), VALUE, ins.value);
    FillOtherShape(f, ESCAPED, EscapeConstant(ins.value), []);
    RawShape(Code(i, ins), []);
  }

  function HandlerSet(k: InstructionType): set<string> {
    set h | h in Handlers(k)
  }

  lemma IndexedCodeShape(i: nat, ins: Instruction)
    requires ins.kind == Power || ins.kind == Factorial
    ensures LabelsOf(Code(i, ins)) == Suffixed(Stems(ins.kind), Dec(i))
    ensures TargetsOf(Code(i, ins)) == Suffixed(Stems(ins.kind), Dec(i)) + HandlerSet(ins.kind)
  {
    var k := ins.kind;
    TemplateShape(k);
    assert Code(i, ins) == Fill(Template(k), ID, Dec(i));
    FillIndexedShape(Template(k), Dec(i), Stems(k), Handlers(k));
  }

  lemma PlainCodeShape(i: nat, ins: Instruction)
    requires ins.kind != Power && ins.kind != Factorial && ins.kind != Push
    ensures LabelsOf(Code(i, ins)) == {} && TargetsOf(Code(i, ins)) == HandlerSet(ins.kind)
    ensures Stems(ins.kind) == []
  {
    var k := ins.kind;
    TemplateShape(k);
    assert Code(i, ins) == Template(k);
    RawShape(Template(k), Handlers(k));
  }

  lemma CodeShape(i: nat, ins: Instruction)
    ensures LabelsOf(Code(i, ins)) == Suffixed(Stems(ins.kind), Dec(i))
    ensures TargetsOf(Code(i, ins)) == Suffixed(Stems(ins.kind), Dec(i)) + HandlerSet(ins.kind)
  {
    var k := ins.kind;
    if k == Power || k == Factorial {
      IndexedCodeShape(i, ins);
    } else {
      assert Suffixed(Stems(k), Dec(i)) == {};
      if k == Push {
        PushShape(i, ins);
        assert HandlerSet(k) == {};
      } else {
        PlainCodeShape(i, ins);
      }
    }
  }

  /** The skeleton of every generated block: the labels it defines are its
      template's stems followed by the instruction index, and it jumps to
      exactly those labels, its template's handlers and, when it checks the
      depth, `stack_error`. */
  lemma BlockSkeleton(i: nat, ins: Instruction)
    ensures Labels(Gen(i, ins)) == Suffixed(Stems(ins.kind), Dec(i))
    ensures Targets(Gen(i, ins)) ==
      (if ins.kind.Pops() > 0 then {StackError} else {}) + Suffixed(Stems(ins.kind), Dec(i)) + HandlerSet(ins.kind)
  {
    DepthContract(ins.kind);
    CodeShape(i, ins);
  }

  // ---------------------------------------------------------------------
  // Labels are unique across the program

  predicate EndsInNonDigit(s: string) {
    |s| > 0 && !Lexer.IsDigit(s[|s| - 1])
  }

  lemma StemsEndInNonDigit(k: InstructionType)
    ensures forall s | s in Stems(k) :: EndsInNonDigit(s)
  {
    forall s | s in Stems(k)
      ensures EndsInNonDigit(s)
    {
      var t := s;
      if t == NoneZero {
        assert t[9] == '_';
      } else if t == NoneOne {
        assert t[8] == '_';
      } else if t == Again {
        assert t[5] == '_';
      } else if t == StoreValue {
        assert t[11] == '_';
      } else {
        assert t == StoreResult;
        assert t[12] == '_';
      }
    }
  }

  lemma FooterLabelsEndInNonDigit()
    ensures forall n | n in FooterLabels :: EndsInNonDigit(n)
    ensures EndsInNonDigit("main")
  {
  }

  lemma DigitAt(s: string, a: string, q: int)
    requires Lexer.AllDigits(a) && |s| <= q < |s| + |a|
    ensures Lexer.IsDigit((s + a)[q])
  {
    assert (s + a)[q] == a[q - |s|];
  }

  lemma LastOfPrefix(s: string, a: string)
    requires |s| > 0
    ensures (s + a)[|s| - 1] == s[|s| - 1]
  {
  }

  /** A run of digits at the end of a label, after a non-digit, is as
      long as the label's own digit suffix. */
  lemma SuffixLengths(s1: string, s2: string, i: nat, j: nat)
    requires EndsInNonDigit(s1) && EndsInNonDigit(s2) && s1 + Dec(i) == s2 + Dec(j)
    ensures |Dec(i)| <= |Dec(j)|
  {
    if |Dec(i)| > |Dec(j)| {
      DigitAt(s1, Dec(i), |s2| - 1);
      LastOfPrefix(s2, Dec(j));
      assert false;
    }
  }

  /** A stem and index are read back from the label they make. */
  lemma SuffixDetermines(s1: string, s2: string, i: nat, j: nat)
    requires EndsInNonDigit(s1) && EndsInNonDigit(s2) && s1 + Dec(i) == s2 + Dec(j)
    ensures i == j && s1 == s2
  {
    SuffixLengths(s1, s2, i, j);
    SuffixLengths(s2, s1, j, i);
    var n := s1 + Dec(i);
    assert Dec(i) == n[|s1|..] && Dec(j) == n[|s2|..];
    DecInjective(i, j);
    assert s1 == n[..|s1|] && s2 == n[..|s2|];
  }

  /** The labels of blocks at different indices are different, and no
      block label is a label of the footer or `main`. */
  lemma LabelsUnique(i: nat, j: nat, a: Instruction, b: Instruction)
    ensures i != j ==> Labels(Gen(i, a)) !! Labels(Gen(j, b))
    ensures Labels(Gen(i, a)) !! FooterLabels && "main" !in Labels(Gen(i, a))
  {
    BlockSkeleton(i, a);
    BlockSkeleton(j, b);
    StemsEndInNonDigit(a.kind);
    StemsEndInNonDigit(b.kind);
    FooterLabelsEndInNonDigit();
    forall n | n in Labels(Gen(i, a))
      ensures n in Labels(Gen(j, b)) ==> i == j
      ensures n !in FooterLabels && n != "main"
    {
      var s1 :| s1 in Stems(a.kind) && n == s1 + Dec(i);
      DigitAt(s1, Dec(i), |n| - 1);
      if n in Labels(Gen(j, b)) {
        var s2 :| s2 in Stems(b.kind) && n == s2 + Dec(j);
        SuffixDetermines(s1, s2, i, j);
      }
    }
  }

  /** Every jump of a block lands on a label of the same block or of the
      footer. */
  lemma JumpsClosed(i: nat, ins: Instruction)
    ensures Targets(Gen(i, ins)) <= Labels(Gen(i, ins)) + FooterLabels
  {
    BlockSkeleton(i, ins);
  }

  // ---------------------------------------------------------------------
  // Facts about single templates

  /** The divide block tests the popped divisor against zero, and jumps to
      `division_by_zero`, before it divides. */
  lemma DivideChecksFirst(i: nat, ins: Instruction)
    requires ins.kind == Divide
    ensures Code(i, ins)[..3] == [I(PopRax), I(CmpRax0), Jump("je", Text(DivisionByZero))]
    ensures I(FdivA) !in Code(i, ins)[..3] && I(FdivA) in Code(i, ins)[3..]
    ensures DivisionByZero in Targets(Gen(i, ins))
  {
    BlockSkeleton(i, ins);
    var c := Code(i, ins);
    assert c == DivideCode();
    assert c[7] == I(FdivA);
    assert c[3..][4] == c[7];
  }

  /** The modulus block divides with `div` but jumps nowhere except on a
      short stack: a zero divisor is not caught. */
  lemma ModulusUnchecked(i: nat, ins: Instruction)
    requires ins.kind == Modulus
    ensures I(DivRbx) in Code(i, ins)
    ensures Targets(Gen(i, ins)) == {StackError}
  {
    BlockSkeleton(i, ins);
    var c := Code(i, ins);
    assert c == ModulusCode();
    assert c[14] == I(DivRbx);
  }

  /** The push block loads the symbol `escapeConstant` gives for its
      literal, and names the literal in its comment. */
  lemma PushLoadsSymbol(i: nat, ins: Instruction)
    requires ins.kind == Push
    ensures Asm(Text("fld qword ptr " + EscapeConstant(ins.value))) in Code(i, ins)
    ensures Note(Text("Load the value " + ins.value + " onto the stack")) in Code(i, ins)
  {
    var v, e := ins.value, EscapeConstant(ins.value);
    var c1 := Fill(PushCode(), VALUE, v);
    var c := Fill(c1, ESCAPED, e);
    assert c == Code(i, ins);
    assert c[0] == FillOp(c1[0], ESCAPED, e) && c1[0] == FillOp(PushCode()[0], VALUE, v);
    assert c[2] == FillOp(c1[2], ESCAPED, e) && c1[2] == FillOp(PushCode()[2], VALUE, v);
    assert "fld qword ptr " + e + "" == "fld qword ptr " + e;
  }

  /** Only the push block depends on the instruction's value, and only
      the power and factorial blocks on its index. */
  lemma BlockInputs(i: nat, j: nat, a: Instruction, b: Instruction)
    requires a.kind == b.kind
    ensures a.kind != Push ==> Gen(i, a) == Gen(i, b)
    ensures a.kind != Power && a.kind != Factorial ==> Gen(i, a) == Gen(j, a)
  {
  }

  // ---------------------------------------------------------------------
  // The depth counter at run time

  /** Where the depth bookkeeping of a block sequence leaves the program:
      still running with a counter value, or stopped at a handler. */
  datatype DepthRun = Running(depth: int) | Stopped(handler: string)

  /** Runs the depth checks and updates of `bs` from counter `d`. */
  function RunBlocks(bs: seq<Block>, d: int): DepthRun
    decreases |bs|
  {
    if bs == [] then Running(d)
    else if d < bs[0].need then Stopped(StackError)
    else RunBlocks(bs[1..], d + bs[0].delta)
  }

  /** The body of the program: one block per instruction, indexed from 0. */
  function Blocks(prog: seq<Instruction>): (bs: seq<Block>)
    ensures |bs| == |prog|
  {
    seq(|prog|, k requires 0 <= k < |prog| => Gen(k, prog[k]))
  }

  /** Blocks that check and change the counter as the instructions pop and
      push. */
  predicate Tracks(bs: seq<Block>, prog: seq<Instruction>) {
    |bs| == |prog|
    && forall k | 0 <= k < |bs| ::
         bs[k].need == prog[k].kind.Pops() && bs[k].delta == prog[k].kind.Pushes() - prog[k].kind.Pops()
  }

  lemma {:induction false} RunTracksExec(bs: seq<Block>, prog: seq<Instruction>, st: seq<Value>)
    requires Tracks(bs, prog)
    ensures RunBlocks(bs, |st|) == match Exec(prog, st)
      case None => Stopped(StackError)
      case Some(s) => Running(|s|)
    decreases |bs|
  {
    if bs != [] {
      assert Tracks(bs[1..], prog[1..]) by {
        forall k | 0 <= k < |bs| - 1
          ensures bs[1..][k] == bs[k + 1] && prog[1..][k] == prog[k + 1]
        {
        }
      }
      match Step(prog[0], st)
      case None =>
      case Some(st') => RunTracksExec(bs[1..], prog[1..], st');
    }
  }

  /** The depth counter of the generated program follows the height of the
      abstract machine's stack: the program stops at `stack_error` exactly
      when the machine underflows, and otherwise ends with the counter
      equal to the machine's final stack height. */
  lemma DepthFollowsStack(prog: seq<Instruction>)
    ensures RunBlocks(Blocks(prog), 0) == match Exec(prog, [])
      case None => Stopped(StackError)
      case Some(s) => Running(|s|)
  {
    var bs := Blocks(prog);
    forall k | 0 <= k < |bs|
      ensures bs[k].need == prog[k].kind.Pops() && bs[k].delta == prog[k].kind.Pushes() - prog[k].kind.Pops()
    {
      DepthContract(prog[k].kind);
    }
    RunTracksExec(bs, prog, []);
  }
}
