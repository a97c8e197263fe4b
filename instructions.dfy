/** The internal form: one instruction per token (instructions/instructions.go),
    and the abstract RPN stack machine that the comments on the instruction
    tags describe. */
module Instructions {
  import opened Wrappers

  /** The instruction tags. Factorial is referenced by the compiler but not
      declared in instructions.go; the model adds it. */
  datatype InstructionType =
    | Push | Plus | Minus | Multiply | Divide | Power | Modulus
    | Abs | Sin | Cos | Tan | Sqrt
    | Swap | Dup
    | Factorial
  {
    /** The byte that tags the instruction in the Go code (`'!'` for the
        undeclared Factorial). */
    function Tag(): char {
      match this
      case Push => 'p'
      case Plus => '+'
      case Minus => '-'
      case Multiply => '*'
      case Divide => '/'
      case Power => '^'
      case Modulus => '%'
      case Abs => 'a'
      case Sin => 's'
      case Cos => 'c'
      case Tan => 't'
      case Sqrt => 'q'
      case Swap => 'S'
      case Dup => 'D'
      case Factorial => '!'
    }

    /** Pop two, push one. */
    predicate IsBinary() {
      this in {Plus, Minus, Multiply, Divide, Power, Modulus}
    }

    /** Pop one, push one. */
    predicate IsUnary() {
      this in {Abs, Sin, Cos, Tan, Sqrt, Factorial}
    }

    /** How many stack entries the instruction consumes. */
    function Pops(): nat {
      if IsBinary() || this == Swap then 2
      else if IsUnary() || this == Dup then 1
      else 0
    }

    /** How many stack entries the instruction leaves in their place. */
    function Pushes(): nat {
      if this == Swap || this == Dup then 2 else 1
    }
  }

  /** One instruction; `value` is the literal pushed by a Push and empty
      for every other instruction. */
  datatype Instruction = Instruction(kind: InstructionType, value: string)

  /** The tags are pairwise distinct, so the byte encoding loses nothing. */
  lemma TagInjective(a: InstructionType, b: InstructionType)
    ensures a.Tag() == b.Tag() <==> a == b
  {
  }

  /** A value on the abstract machine's stack: a pushed literal, or an
      operation applied to the values it consumed (bottom operand first). */
  datatype Value = Literal(text: string) | Applied(op: InstructionType, args: seq<Value>)

  /** One step of the abstract RPN machine; the top of the stack is the last
      element. `None` is an underflow. */
  function Step(ins: Instruction, st: seq<Value>): (r: Option<seq<Value>>)
    ensures r.None? <==> |st| < ins.kind.Pops()
    ensures r.Some? ==> |r.value| == |st| - ins.kind.Pops() + ins.kind.Pushes()
    ensures r.Some? ==> r.value[..|st| - ins.kind.Pops()] == st[..|st| - ins.kind.Pops()]
  {
    var n := |st|;
    if ins.kind == Push then Some(st + [Literal(ins.value)])
    else if n < ins.kind.Pops() then None
    else if ins.kind == Swap then Some(st[..n - 2] + [st[n - 1], st[n - 2]])
    else if ins.kind == Dup then Some(st[..n - 1] + [st[n - 1], st[n - 1]])
    else if ins.kind.IsBinary() then Some(st[..n - 2] + [Applied(ins.kind, [st[n - 2], st[n - 1]])])
    else Some(st[..n - 1] + [Applied(ins.kind, [st[n - 1]])])
  }

  /** Runs a whole instruction list; `None` if some step underflows. */
  function Exec(prog: seq<Instruction>, st: seq<Value>): Option<seq<Value>>
    decreases |prog|
  {
    if prog == [] then Some(st)
    else match Step(prog[0], st)
      case None => None
      case Some(st') => Exec(prog[1..], st')
  }

  /** Running a list extended by one instruction is running the list, then
      that instruction. */
  lemma {:induction false} ExecSnoc(prog: seq<Instruction>, ins: Instruction, st: seq<Value>)
    ensures Exec(prog + [ins], st) ==
      match Exec(prog, st)
      case None => None
      case Some(st') => Step(ins, st')
    decreases |prog|
  {
    if prog == [] {
      assert [] + [ins] == [ins];
      assert [ins][1..] == [];
    } else {
      assert (prog + [ins])[0] == prog[0];
      assert (prog + [ins])[1..] == prog[1..] + [ins];
      match Step(prog[0], st)
      case None =>
      case Some(st') => ExecSnoc(prog[1..], ins, st');
    }
  }

  /** Swap exchanges the top two entries: it keeps the entries, and a second
      Swap gives the stack back. */
  lemma SwapTwice(st: seq<Value>)
    requires |st| >= 2
    ensures var r := Step(Instruction(Swap, ""), st);
      && r.Some? && multiset(r.value) == multiset(st)
      && r.value[|st| - 1] == st[|st| - 2] && r.value[|st| - 2] == st[|st| - 1]
      && Step(Instruction(Swap, ""), r.value) == Some(st)
  {
    var n := |st|;
    var r := st[..n - 2] + [st[n - 1], st[n - 2]];
    assert st == st[..n - 2] + [st[n - 2], st[n - 1]];
    assert r[..n - 2] == st[..n - 2];
    calc {
      multiset(r);
      multiset(st[..n - 2]) + multiset([st[n - 1], st[n - 2]]);
      multiset(st[..n - 2]) + multiset([st[n - 2], st[n - 1]]);
      multiset(st);
    }
  }

  /** Dup, on a stack of at least one entry, adds exactly one copy of the
      top and leaves everything below it in place. */
  lemma DupCopiesTop(st: seq<Value>)
    requires |st| >= 1
    ensures var r := Step(Instruction(Dup, ""), st);
      && r.Some? && multiset(r.value) == multiset(st) + multiset{st[|st| - 1]}
      && r.value[..|st|] == st && r.value[|st|] == st[|st| - 1]
  {
    var n := |st|;
    var r := st[..n - 1] + [st[n - 1], st[n - 1]];
    assert st == st[..n - 1] + [st[n - 1]];
    assert r == st + [st[n - 1]];
  }
}
