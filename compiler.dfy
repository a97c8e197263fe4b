/** The compiler object of compiler/compiler.go: it tokenizes the
    expression, checks the token list, turns it into instructions while
    collecting the constants, and writes the program.

    Each step is a method that updates the object's fields as the Go code
    does; the functions beside them say what the fields become. */
module Compiler {
  import opened Wrappers
  import opened Token
  import Lexer
  import opened Instructions
  import opened Generator
  import opened Assembly
  import Escape

  // ---------------------------------------------------------------------
  // Tokenizing

  /** `math.Pi` and `math.E` as `%f` prints them: six decimals. */
  const PiLiteral := "3.141593"
  const ELiteral := "2.718282"

  const LexerError := "Error parsing input; token.ERROR returned from the lexer: "
  const EmptyInput := "The input expression was empty"
  const NoLeadingNumber := "we expected the program to begin with a numeric thing"
  const TrailingNumber := "program ends with a number, which is invalid"

  lemma SixDecimals(lit: string)
    requires |lit| == 8 && lit[1] == '.'
    requires forall k | 0 <= k < 8 :: k == 1 || Lexer.IsDigit(lit[k])
    ensures Lexer.NumberLiteral(lit)
  {
    assert Lexer.AllDigits(lit[..1]) && Lexer.AllDigits(lit[2..]) by {
      assert forall k | 0 <= k < 6 :: lit[2..][k] == lit[k + 2];
    }
    assert Lexer.PointAt(lit, 1);
  }

  lemma ConstantLiterals()
    ensures Lexer.NumberLiteral(PiLiteral) && Lexer.NumberLiteral(ELiteral)
  {
    SixDecimals(PiLiteral);
    SixDecimals(ELiteral);
  }

  /** `pi` and `e` are turned into numbers; every other token is kept. */
  function Rewrite(t: Token): (r: Token)
    ensures r.kind != PI && r.kind != E
    ensures t.kind != PI && t.kind != E ==> r == t
    ensures t.kind == PI || t.kind == E ==> r.kind == NUMBER && Lexer.NumberLiteral(r.literal)
  {
    ConstantLiterals();
    if t.kind == PI then Token(NUMBER, PiLiteral)
    else if t.kind == E then Token(NUMBER, ELiteral)
    else t
  }

  /** A token the drain loop keeps: the lexer never yields IDENT or
      FACTORIAL, the loop stops at EOF and ERROR, `pi` and `e` are
      rewritten, and a number is a well-formed literal. */
  predicate Collected(t: Token) {
    t.kind !in {EOF, ERROR, IDENT, FACTORIAL, PI, E}
    && (t.kind == NUMBER ==> Lexer.NumberLiteral(t.literal))
  }

  /** What the drain loop collects from position p: the tokens kept before
      it stops, and the error if it stopped at an ERROR token. */
  function Scan(cs: seq<char>, p: nat): (r: (seq<Token>, Option<string>))
    decreases |cs| + 1 - p
  {
    var (t, q) := Lexer.Step(cs, p);
    if t.kind == EOF then ([], None)
    else if t.kind == ERROR then ([], Some(LexerError + t.literal))
    else
      var (ts, err) := Scan(cs, q);
      ([Rewrite(t)] + ts, err)
  }

  /** Every collected token is one the drain loop keeps. */
  lemma {:induction false} ScanCollected(cs: seq<char>, p: nat)
    ensures forall t | t in Scan(cs, p).0 :: Collected(t)
    decreases |cs| + 1 - p
  {
    var (t, q) := Lexer.Step(cs, p);
    Lexer.NoIdentOrFactorial(cs, p);
    Lexer.NumberToken(cs, p);
    if t.kind != EOF && t.kind != ERROR {
      ScanCollected(cs, q);
      assert Scan(cs, p).0 == [Rewrite(t)] + Scan(cs, q).0;
    }
  }

  /** One turn of the drain loop. */
  lemma ScanStep(cs: seq<char>, p: nat)
    ensures var (t, q) := Lexer.Step(cs, p);
      && (t.kind == EOF ==> Scan(cs, p) == ([], None))
      && (t.kind == ERROR ==> Scan(cs, p) == ([], Some(LexerError + t.literal)))
      && (t.kind != EOF && t.kind != ERROR ==> Scan(cs, p) == ([Rewrite(t)] + Scan(cs, q).0, Scan(cs, q).1))
  {
  }

  /** One turn of the drain loop, stated on the tokens collected so far. */
  lemma ScanTurn(before: seq<Token>, acc: seq<Token>, cs: seq<char>, p: nat)
    requires before + Scan(cs, 0).0 == acc + Scan(cs, p).0 && Scan(cs, p).1 == Scan(cs, 0).1
    ensures var (t, q) := Lexer.Step(cs, p);
      && (t.kind == EOF ==> acc == before + Scan(cs, 0).0 && Scan(cs, 0).1 == None)
      && (t.kind == ERROR ==> Scan(cs, 0).1 == Some(LexerError + t.literal))
      && (t.kind != EOF && t.kind != ERROR ==>
            before + Scan(cs, 0).0 == (acc + [Rewrite(t)]) + Scan(cs, q).0 && Scan(cs, q).1 == Scan(cs, 0).1)
  {
    ScanStep(cs, p);
    var (t, q) := Lexer.Step(cs, p);
    if t.kind != EOF && t.kind != ERROR {
      assert acc + Scan(cs, p).0 == (acc + [Rewrite(t)]) + Scan(cs, q).0;
    }
  }

  /** The checks made on the collected tokens. */
  function Validate(ts: seq<Token>): Option<string> {
    if |ts| < 1 then Some(EmptyInput)
    else if ts[0].kind != NUMBER then Some(NoLeadingNumber)
    else if |ts| > 1 && ts[|ts| - 1].kind == NUMBER then Some(TrailingNumber)
    else None
  }

  /** The error tokenizing returns, when the token list held `before`. */
  function TokenizeError(before: seq<Token>, cs: string): Option<string> {
    var (ts, err) := Scan(cs, 0);
    if err.Some? then err else Validate(before + ts)
  }

  /** `ts` and `err` are what the drain loop makes of the lexer's tokens
      `all`: the tokens up to the EOF, `pi` and `e` rewritten, unless an
      ERROR token comes first; then the error names that token's literal. */
  predicate Follows(ts: seq<Token>, err: Option<string>, all: seq<Token>) {
    && (err.None? <==> forall k | 0 <= k < |all| :: all[k].kind != ERROR)
    && (err.None? ==> |ts| == |all| - 1 && forall k | 0 <= k < |ts| :: ts[k] == Rewrite(all[k]))
    && (err.Some? ==> exists k | 0 <= k < |all| :: all[k].kind == ERROR && err == Some(LexerError + all[k].literal))
  }

  /** A token kept by the drain loop extends both sides. */
  lemma FollowsCons(t: Token, ts: seq<Token>, err: Option<string>, rest: seq<Token>)
    requires Follows(ts, err, rest) && t.kind != EOF && t.kind != ERROR
    ensures Follows([Rewrite(t)] + ts, err, [t] + rest)
  {
    var all := [t] + rest;
    assert forall k | 0 < k < |all| :: all[k] == rest[k - 1];
    if err.Some? {
      var k :| 0 <= k < |rest| && rest[k].kind == ERROR && err == Some(LexerError + rest[k].literal);
      assert all[k + 1] == rest[k];
    } else {
      assert forall k | 0 < k < |ts| + 1 :: ([Rewrite(t)] + ts)[k] == ts[k - 1];
    }
  }

  /** The drain loop from position p follows the lexer's tokens from p. */
  lemma {:induction false} ScanFollowsTokens(cs: seq<char>, p: nat)
    ensures Follows(Scan(cs, p).0, Scan(cs, p).1, Lexer.Tokens(cs, p))
    decreases |cs| + 1 - p
  {
    var (t, q) := Lexer.Step(cs, p);
    ScanStep(cs, p);
    if t.kind == EOF {
      assert Lexer.Tokens(cs, p) == [t];
    } else if t.kind == ERROR {
      var all := Lexer.Tokens(cs, p);
      assert all == [t] + Lexer.Tokens(cs, q);
      assert all[0] == t;
    } else {
      ScanFollowsTokens(cs, q);
      Lexer.TokensCons(cs, p, t, q);
      FollowsCons(t, Scan(cs, q).0, Scan(cs, q).1, Lexer.Tokens(cs, q));
    }
  }

  // ---------------------------------------------------------------------
  // The internal form

  /** The instruction a token becomes; tokens of other kinds are skipped. */
  function ToInstruction(t: Token): (r: Option<Instruction>)
    ensures r.Some? <==> t.kind !in {EOF, ERROR, IDENT, PI, E}
    ensures r.Some? ==> (r.value.kind == Push <==> t.kind == NUMBER)
    ensures r.Some? ==> r.value.value == if t.kind == NUMBER then t.literal else ""
  {
    match t.kind
    case ABS => Some(Instruction(Abs, ""))
    case ASTERISK => Some(Instruction(Multiply, ""))
    case FACTORIAL => Some(Instruction(Factorial, ""))
    case COS => Some(Instruction(Cos, ""))
    case DUP => Some(Instruction(Dup, ""))
    case NUMBER => Some(Instruction(Push, t.literal))
    case MOD => Some(Instruction(Modulus, ""))
    case MINUS => Some(Instruction(Minus, ""))
    case PLUS => Some(Instruction(Plus, ""))
    case POWER => Some(Instruction(Power, ""))
    case SIN => Some(Instruction(Sin, ""))
    case SLASH => Some(Instruction(Divide, ""))
    case SQRT => Some(Instruction(Sqrt, ""))
    case SWAP => Some(Instruction(Swap, ""))
    case TAN => Some(Instruction(Tan, ""))
    case _ => None
  }

  /** Different token kinds become different instructions, each operator
      and function keyword keeping its own meaning. */
  lemma ToInstructionInjective(a: Token, b: Token)
    requires ToInstruction(a).Some? && ToInstruction(b).Some? && a.kind != b.kind
    ensures ToInstruction(a).value.kind != ToInstruction(b).value.kind
  {
  }

  /** The instructions of a token list, in order. */
  function InternalForm(ts: seq<Token>): (prog: seq<Instruction>)
    ensures |prog| <= |ts|
    decreases |ts|
  {
    if ts == [] then []
    else
      InternalForm(ts[..|ts| - 1]) + Emitted(ts[|ts| - 1])
  }

  /** The instruction a token adds to the program, if any. */
  function Emitted(t: Token): seq<Instruction> {
    match ToInstruction(t) case None => [] case Some(ins) => [ins]
  }

  /** The constant a token adds, if any. */
  function Declared(t: Token): set<string> {
    if t.kind == NUMBER then {t.literal} else {}
  }

  lemma InternalFormSnoc(ts: seq<Token>, t: Token)
    ensures InternalForm(ts + [t]) == InternalForm(ts) + Emitted(t)
  {
    assert (ts + [t])[..|ts|] == ts;
  }

  /** The literals of the NUMBER tokens: the constants. */
  function NumberLiterals(ts: seq<Token>): set<string> {
    set t | t in ts && t.kind == NUMBER :: t.literal
  }

  lemma NumberLiteralsSnoc(ts: seq<Token>, t: Token)
    ensures NumberLiterals(ts + [t]) == NumberLiterals(ts) + Declared(t)
  {
    assert forall u :: u in ts + [t] <==> u in ts || u == t;
  }

  /** One more token of ts, as the loop of MakeInternalForm takes it. */
  lemma PrefixStep(ts: seq<Token>, i: nat, ins: seq<Instruction>, cs: set<string>)
    requires i < |ts|
    ensures ins + InternalForm(ts[..i + 1]) == ins + InternalForm(ts[..i]) + Emitted(ts[i])
    ensures cs + NumberLiterals(ts[..i + 1]) == cs + NumberLiterals(ts[..i]) + Declared(ts[i])
  {
    assert ts[..i + 1] == ts[..i] + [ts[i]];
    InternalFormSnoc(ts[..i], ts[i]);
    NumberLiteralsSnoc(ts[..i], ts[i]);
  }

  /** Collected tokens become one instruction each, in the same order; a
      number becomes a push of its literal. */
  lemma OnePerToken(ts: seq<Token>)
    requires forall k | 0 <= k < |ts| :: Collected(ts[k])
    ensures |InternalForm(ts)| == |ts|
    ensures forall k | 0 <= k < |ts| :: ToInstruction(ts[k]) == Some(InternalForm(ts)[k])
  {
    assert forall k | 0 <= k < |ts| :: ToInstruction(ts[k]).Some?;
    OnePerInstruction(ts);
  }

  /** OnePerToken for any tokens that each become an instruction. */
  lemma {:induction false} OnePerInstruction(ts: seq<Token>)
    requires forall k | 0 <= k < |ts| :: ToInstruction(ts[k]).Some?
    ensures |InternalForm(ts)| == |ts|
    ensures forall k | 0 <= k < |ts| :: ToInstruction(ts[k]) == Some(InternalForm(ts)[k])
    decreases |ts|
  {
    if ts != [] {
      var n := |ts| - 1;
      var init := ts[..n];
      assert forall k | 0 <= k < n :: init[k] == ts[k];
      OnePerInstruction(init);
      var ins := ToInstruction(ts[n]).value;
      assert Emitted(ts[n]) == [ins];
      OneMore(init, ts[n], ts, InternalForm(init), ins);
    }
  }

  /** The induction step of OnePerInstruction. */
  lemma OneMore(init: seq<Token>, t: Token, ts: seq<Token>, prog: seq<Instruction>, ins: Instruction)
    requires ts == init + [t] && ToInstruction(t) == Some(ins)
    requires |prog| == |init| && forall k | 0 <= k < |init| :: ToInstruction(init[k]) == Some(prog[k])
    ensures forall k | 0 <= k < |ts| :: ToInstruction(ts[k]) == Some((prog + [ins])[k])
  {
  }

  /** A literal is a constant exactly when some instruction pushes it. */
  lemma ConstantsArePushed(ts: seq<Token>)
    requires forall k | 0 <= k < |ts| :: Collected(ts[k])
    ensures forall v :: v in NumberLiterals(ts) <==>
      exists k | 0 <= k < |InternalForm(ts)| :: InternalForm(ts)[k] == Instruction(Push, v)
  {
    OnePerToken(ts);
    var prog := InternalForm(ts);
    forall v ensures v in NumberLiterals(ts) <==> exists k | 0 <= k < |prog| :: prog[k] == Instruction(Push, v) {
      if v in NumberLiterals(ts) {
        var t :| t in ts && t.kind == NUMBER && t.literal == v;
        var k :| 0 <= k < |ts| && ts[k] == t;
        assert prog[k] == Instruction(Push, v);
      }
      if exists k | 0 <= k < |prog| :: prog[k] == Instruction(Push, v) {
        var k :| 0 <= k < |prog| && prog[k] == Instruction(Push, v);
        assert ts[k] in ts;
      }
    }
  }

  // ---------------------------------------------------------------------
  // The output

  /** `order` lists the elements of `s`, each once. */
  predicate Enumerates(order: seq<string>, s: set<string>) {
    && (forall i, j | 0 <= i < j < |order| :: order[i] != order[j])
    && (forall v | v in order :: v in s)
    && (forall v | v in s :: v in order)
  }

  /** Part way through visiting `s`: `order` lists, each once, the elements
      already visited, and `rest` holds the others. */
  predicate Visiting(order: seq<string>, rest: set<string>, s: set<string>) {
    && rest <= s
    && (forall i, j | 0 <= i < j < |order| :: order[i] != order[j])
    && (forall v | v in order :: v in s && v !in rest)
    && (forall v | v in s :: v in order || v in rest)
  }

  lemma VisitStep(order: seq<string>, rest: set<string>, s: set<string>, v: string)
    requires Visiting(order, rest, s) && v in rest
    ensures Visiting(order + [v], rest - {v}, s)
    ensures ConstantsData(order + [v]) == ConstantsData(order) + [ConstantData(v)]
  {
    var o := order + [v];
    assert o[..|order|] == order;
    assert forall u | u in o :: u in order || u == v;
  }

  lemma VisitDone(order: seq<string>, s: set<string>)
    requires Visiting(order, {}, s)
    ensures Enumerates(order, s)
  {
  }

  /** The blocks of the body as the generator functions write them. */
  function BodyText(prog: seq<Instruction>): string
    decreases |prog|
  {
    if prog == [] then "" else BodyText(prog[..|prog| - 1]) + GenText(|prog| - 1, prog[|prog| - 1])
  }

  /** The text `output` returns when the constants are written in `order`. */
  function OutputText(order: seq<string>, debug: bool, prog: seq<Instruction>): string {
    Directives + DataLines(FixedData) + DataLines(ConstantsData(order))
    + CodeText(Prologue(debug)) + BodyText(prog) + CodeText(Footer())
  }

  lemma {:induction false} BodyIsBlocks(prog: seq<Instruction>)
    requires forall k | 0 <= k < |prog| :: '#' !in prog[k].value
    ensures BodyText(prog) == BlocksText(Blocks(prog))
    decreases |prog|
  {
    if prog != [] {
      var n := |prog| - 1;
      var init := prog[..n];
      assert forall k | 0 <= k < n :: init[k] == prog[k];
      BodyIsBlocks(init);
      BlocksSnoc(prog);
      GenIsReplace(n, prog[n]);
      BlocksTextSnoc(Blocks(init), Gen(n, prog[n]));
    }
  }

  lemma BlocksSnoc(prog: seq<Instruction>)
    requires prog != []
    ensures Blocks(prog) == Blocks(prog[..|prog| - 1]) + [Gen(|prog| - 1, prog[|prog| - 1])]
  {
    var n := |prog| - 1;
    var a := Blocks(prog);
    var b := Blocks(prog[..n]) + [Gen(n, prog[n])];
    forall k | 0 <= k < |a|
      ensures a[k] == b[k]
    {
      assert a[k] == Gen(k, prog[k]);
      if k < n {
        var c := Blocks(prog[..n]);
        assert c[k] == Gen(k, prog[..n][k]);
        assert prog[..n][k] == prog[k];
        assert b[k] == c[k];
      } else {
        assert b[k] == Gen(n, prog[n]);
      }
    }
  }

  lemma BlocksTextSnoc(bs: seq<Block>, b: Block)
    ensures BlocksText(bs + [b]) == BlocksText(bs) + BlockText(b)
  {
    assert (bs + [b])[..|bs|] == bs;
  }

  /** When no literal holds a `#`, the output is the rendering of the
      structured program: the text built with string replacement and the
      program reasoned about in `Assembly` are the same. */
  lemma OutputIsProgram(order: seq<string>, debug: bool, prog: seq<Instruction>)
    requires forall k | 0 <= k < |prog| :: '#' !in prog[k].value
    ensures OutputText(order, debug, prog) == ProgramText(Layout(order, debug, prog))
  {
    BodyIsBlocks(prog);
    LayoutText(FixedData, ConstantsData(order), Prologue(debug), Blocks(prog), Footer(), BodyText(prog));
  }

  lemma LayoutText(fixed: seq<Data>, consts: seq<Data>, pro: seq<Op>, bs: seq<Block>, foot: seq<Op>, body: string)
    requires body == BlocksText(bs)
    ensures ProgramText(Program(fixed + consts, pro, bs, foot))
      == Directives + DataLines(fixed) + DataLines(consts) + CodeText(pro) + body + CodeText(foot)
  {
    DataLinesAppend(fixed, consts);
    var x := DataLines(fixed + consts);
    assert ProgramText(Program(fixed + consts, pro, bs, foot)) == Directives + x + CodeText(pro) + body + CodeText(foot);
    Regroup(x, DataLines(fixed), DataLines(consts), CodeText(pro), body, CodeText(foot));
  }

  lemma Regroup(x: string, a: string, b: string, c: string, body: string, d: string)
    requires x == a + b
    ensures Directives + x + c + body + d == Directives + a + b + c + body + d
  {
  }

  lemma OutputAssembled(order: seq<string>, debug: bool, prog: seq<Instruction>,
                        fixed: string, lines: string, pro: string, body: string, foot: string, out: string)
    requires fixed == Directives + DataLines(FixedData) && lines == DataLines(ConstantsData(order))
    requires pro == CodeText(Prologue(debug)) && body == BodyText(prog) && foot == CodeText(Footer())
    requires out == fixed + lines + pro + body + foot
    ensures out == OutputText(order, debug, prog)
  {
  }

  lemma PrologueText(debug: bool)
    ensures CodeText(Prologue(debug)) == CodeText(Entry()) + if debug then CodeText(DebugBreak()) else ""
  {
    CodeTextAppend(Entry(), DebugBreak());
    CodeTextAppend(Entry(), []);
  }

  // ---------------------------------------------------------------------
  // The compiler object

  class Compiler {
    var debug: bool
    var expression: string
    var constants: set<string>
    var tokens: seq<Token>
    var instructions: seq<Instruction>

    constructor New(input: string)
      ensures expression == input && constants == {} && !debug
      ensures tokens == [] && instructions == []
    {
      expression := input;
      constants := {};
      debug := false;
      tokens := [];
      instructions := [];
    }

    method SetDebug(val: bool)
      modifies this
      ensures debug == val
      ensures expression == old(expression) && constants == old(constants)
      ensures tokens == old(tokens) && instructions == old(instructions)
    {
      debug := val;
    }

    /** Drains a lexer over the expression into `tokens`, then checks the
        token list. */
    method Tokenize() returns (err: Option<string>)
      modifies this
      ensures tokens == old(tokens) + Scan(expression, 0).0
      ensures err == TokenizeError(old(tokens), expression)
      ensures debug == old(debug) && expression == old(expression)
      ensures constants == old(constants) && instructions == old(instructions)
    {
      var lexed := new Lexer.Lexer(expression);
      while true
        invariant lexed.Valid() && lexed.characters == expression
        invariant lexed.position <= |expression| + 1
        invariant old(tokens) + Scan(expression, 0).0 == tokens + Scan(expression, lexed.position).0
        invariant Scan(expression, lexed.position).1 == Scan(expression, 0).1
        invariant debug == old(debug) && expression == old(expression)
        invariant constants == old(constants) && instructions == old(instructions)
        decreases |expression| + 1 - lexed.position
      {
        ScanTurn(old(tokens), tokens, expression, lexed.position);
        var tok := lexed.NextToken();
        ghost var lexedTok := tok;
        if tok.kind == EOF {
          break;
        }
        if tok.kind == ERROR {
          return Some(LexerError + tok.literal);
        }
        if tok.kind == PI {
          tok := Token(NUMBER, PiLiteral);
        }
        if tok.kind == E {
          tok := Token(NUMBER, ELiteral);
        }
        assert tok == Rewrite(lexedTok);
        tokens := tokens + [tok];
      }
      if |tokens| < 1 {
        return Some(EmptyInput);
      }
      if tokens[0].kind != NUMBER {
        return Some(NoLeadingNumber);
      }
      if |tokens| > 1 {
        var end := tokens[|tokens| - 1];
        if end.kind == NUMBER {
          return Some(TrailingNumber);
        }
      }
      return None;
    }

    /** Appends an instruction for every token and records every number as
        a constant. */
    method MakeInternalForm()
      modifies this
      ensures instructions == old(instructions) + InternalForm(tokens)
      ensures constants == old(constants) + NumberLiterals(tokens)
      ensures debug == old(debug) && expression == old(expression) && tokens == old(tokens)
    {
      var ts := tokens;
      for i := 0 to |ts|
        invariant instructions == old(instructions) + InternalForm(ts[..i])
        invariant constants == old(constants) + NumberLiterals(ts[..i])
        invariant debug == old(debug) && expression == old(expression) && tokens == ts
      {
        PrefixStep(ts, i, old(instructions), old(constants));
        AddToken(ts[i]);
      }
      assert ts[..|ts|] == ts;
    }

    /** One case of the switch over token kinds. */
    method AddToken(t: Token)
      modifies this
      ensures instructions == old(instructions) + Emitted(t)
      ensures constants == old(constants) + Declared(t)
      ensures debug == old(debug) && expression == old(expression) && tokens == old(tokens)
    {
      match t.kind {
        case ABS => instructions := instructions + [Instruction(Abs, "")];
        case ASTERISK => instructions := instructions + [Instruction(Multiply, "")];
        case FACTORIAL => instructions := instructions + [Instruction(Factorial, "")];
        case COS => instructions := instructions + [Instruction(Cos, "")];
        case DUP => instructions := instructions + [Instruction(Dup, "")];
        case NUMBER =>
          constants := constants + {t.literal};
          instructions := instructions + [Instruction(Push, t.literal)];
        case MOD => instructions := instructions + [Instruction(Modulus, "")];
        case MINUS => instructions := instructions + [Instruction(Minus, "")];
        case PLUS => instructions := instructions + [Instruction(Plus, "")];
        case POWER => instructions := instructions + [Instruction(Power, "")];
        case SIN => instructions := instructions + [Instruction(Sin, "")];
        case SLASH => instructions := instructions + [Instruction(Divide, "")];
        case SQRT => instructions := instructions + [Instruction(Sqrt, "")];
        case SWAP => instructions := instructions + [Instruction(Swap, "")];
        case TAN => instructions := instructions + [Instruction(Tan, "")];
        case _ =>
      }
    }

    /** Writes the header with one data line per constant, in whatever
        order the constants are visited, then the body and the footer. */
    method Output() returns (out: string, ghost order: seq<string>)
      ensures Enumerates(order, constants)
      ensures out == OutputText(order, debug, instructions)
    {
      var fixed := Directives + DataLines(FixedData);
      var lines;
      lines, order := ConstantLines();
      var pro := PrologueLines();
      var body := Body();
      var foot := CodeText(Footer());
      out := fixed + lines + pro + body + foot;
      OutputAssembled(order, debug, instructions, fixed, lines, pro, body, foot, out);
    }

    /** The entry point, with the breakpoint in debug mode. */
    method PrologueLines() returns (text: string)
      ensures text == CodeText(Prologue(debug))
    {
      text := CodeText(Entry());
      if debug {
        text := text + CodeText(DebugBreak());
      }
      PrologueText(debug);
    }

    /** The data lines of the constants, one per constant, in the order the
        set is visited. */
    method ConstantLines() returns (lines: string, ghost order: seq<string>)
      ensures Enumerates(order, constants)
      ensures lines == DataLines(ConstantsData(order))
    {
      lines := "";
      var rest := constants;
      order := [];
      while rest != {}
        invariant Visiting(order, rest, constants)
        invariant lines == DataLines(ConstantsData(order))
        decreases rest
      {
        var v :| v in rest;
        VisitStep(order, rest, constants, v);
        ConstantsDataSnoc(order, v);
        lines := lines + DataText(ConstantData(v));
        order := order + [v];
        rest := rest - {v};
      }
      VisitDone(order, constants);
    }

    /** The blocks of the instructions, in order. */
    method Body() returns (body: string)
      ensures body == BodyText(instructions)
    {
      body := "";
      for i := 0 to |instructions|
        invariant body == BodyText(instructions[..i])
      {
        assert instructions[..i + 1][..i] == instructions[..i];
        body := body + GenText(i, instructions[i]);
      }
      assert instructions[..|instructions|] == instructions;
    }

    /** Tokenizes, and on success builds the internal form and writes the
        program; `order` is the order in which the constants were written. */
    method Compile() returns (out: string, err: Option<string>, ghost order: seq<string>)
      modifies this
      ensures tokens == old(tokens) + Scan(expression, 0).0
      ensures err == TokenizeError(old(tokens), expression)
      ensures err.Some? ==> out == "" && instructions == old(instructions) && constants == old(constants)
      ensures err.None? ==> instructions == old(instructions) + InternalForm(tokens)
      ensures err.None? ==> constants == old(constants) + NumberLiterals(tokens)
      ensures err.None? ==> Enumerates(order, constants) && out == OutputText(order, debug, instructions)
      ensures debug == old(debug) && expression == old(expression)
    {
      order := [];
      err := Tokenize();
      if err.Some? {
        return "", err, order;
      }
      MakeInternalForm();
      out, order := Output();
    }
  }

  /** The compiler's public use: a new compiler for the expression, the
      debug flag set, then Compile. */
  method CompileExpression(input: string, debug: bool) returns (out: string, err: Option<string>, ghost order: seq<string>)
    ensures err == TokenizeError([], input)
    ensures err.Some? ==> out == ""
    ensures err.None? ==> Enumerates(order, NumberLiterals(Scan(input, 0).0))
    ensures err.None? ==> out == OutputText(order, debug, InternalForm(Scan(input, 0).0))
  {
    var c := new Compiler.New(input);
    c.SetDebug(debug);
    ghost var ts := Scan(input, 0).0;
    assert [] + ts == ts;
    assert [] + InternalForm(ts) == InternalForm(ts);
    assert {} + NumberLiterals(ts) == NumberLiterals(ts);
    out, err, order := c.Compile();
  }

  // ---------------------------------------------------------------------
  // The whole pipeline

  /** A number literal holds no `#`, so no literal can be mistaken for a
      placeholder of the push template. */
  lemma NumberLiteralHashFree(v: string)
    requires Lexer.NumberLiteral(v)
    ensures '#' !in v
  {
    Escape.MagnitudeOf(v);
    var m := Escape.Magnitude(v);
    Escape.UnsignedChars(m);
    assert forall k | 0 <= k < |v| :: v[k] != '#' by {
      forall k | 0 <= k < |v| ensures v[k] != '#' {
        if v != m {
          assert v == "-" + m;
          if k > 0 {
            assert v[k] == m[k - 1];
          }
        }
      }
    }
  }

  /** The values of the instructions built from collected tokens hold no
      `#`. */
  lemma ValuesHashFree(ts: seq<Token>)
    requires forall k | 0 <= k < |ts| :: Collected(ts[k])
    ensures forall k | 0 <= k < |InternalForm(ts)| :: '#' !in InternalForm(ts)[k].value
  {
    OnePerToken(ts);
    forall k | 0 <= k < |InternalForm(ts)|
      ensures '#' !in InternalForm(ts)[k].value
    {
      if ts[k].kind == NUMBER {
        NumberLiteralHashFree(ts[k].literal);
      }
    }
  }

  /** The outcome the RPN machine predicts for the depth bookkeeping: the
      print is reached when it runs without underflow and leaves one value. */
  function Predicted(prog: seq<Instruction>): Outcome {
    match Exec(prog, [])
    case None => Aborted(StackError)
    case Some(s) => if |s| == 1 then Printed else Aborted(StackTooFull)
  }

  /** A push of `v` in block `i` loads the symbol under which `v` is
      declared in the data section. */
  predicate PushDeclared(p: Program, prog: seq<Instruction>, i: nat)
    requires i < |prog| && |p.body| == |prog|
  {
    prog[i].kind == Push ==>
      && Asm(Text("fld qword ptr " + Escape.EscapeConstant(prog[i].value))) in p.body[i].code
      && ConstantData(prog[i].value) in p.data
  }

  /** The compiler end to end. For an expression that tokenizes without
      error, the program starts with a push and has one block per token;
      the text `output` writes is the rendering of the structured program;
      following its depth counter, the program reaches the print of its
      result exactly when the RPN machine runs the instructions without
      underflow and ends with one value, and stops at `stack_error` or
      `stack_too_full` otherwise (a zero divisor or an overflow can still
      stop it later); and every push loads a symbol that the data section
      declares for its literal. */
  lemma Pipeline(input: string, debug: bool, order: seq<string>)
    requires TokenizeError([], input).None?
    requires Enumerates(order, NumberLiterals(Scan(input, 0).0))
    ensures var ts := Scan(input, 0).0; var prog := InternalForm(ts);
      var p := Layout(order, debug, prog);
      && |prog| == |ts| > 0 && prog[0].kind == Push
      && OutputText(order, debug, prog) == ProgramText(p)
      && Exit(p.body) == Predicted(prog)
      && forall i | 0 <= i < |prog| :: PushDeclared(p, prog, i)
  {
    var ts := Scan(input, 0).0;
    AcceptedTokens(input);
    OnePerToken(ts);
    var prog := InternalForm(ts);
    assert ToInstruction(ts[0]) == Some(prog[0]);
    ValuesHashFree(ts);
    OutputIsProgram(order, debug, prog);
    ProgramOutcome(prog);
    ConstantsArePushed(ts);
    PushesDeclared(order, debug, prog, NumberLiterals(ts));
  }

  /** The tokens of an accepted expression are collected ones, and there is
      at least one, a number. */
  lemma AcceptedTokens(input: string)
    requires TokenizeError([], input).None?
    ensures var ts := Scan(input, 0).0;
      && (forall k | 0 <= k < |ts| :: Collected(ts[k]))
      && |ts| > 0 && ts[0].kind == NUMBER
  {
    var ts := Scan(input, 0).0;
    ScanCollected(input, 0);
    forall k | 0 <= k < |ts| ensures Collected(ts[k]) {
      assert ts[k] in ts;
    }
    assert [] + ts == ts;
  }

  /** Every push loads a symbol the data section declares, when the
      constants are the values the program pushes. */
  lemma PushesDeclared(order: seq<string>, debug: bool, prog: seq<Instruction>, constants: set<string>)
    requires Enumerates(order, constants)
    requires forall v :: v in constants <==> exists k | 0 <= k < |prog| :: prog[k] == Instruction(Push, v)
    ensures var p := Layout(order, debug, prog);
      forall i | 0 <= i < |prog| :: PushDeclared(p, prog, i)
  {
    var p := Layout(order, debug, prog);
    forall i | 0 <= i < |prog|
      ensures PushDeclared(p, prog, i)
    {
      if prog[i].kind == Push {
        var v := prog[i].value;
        assert p.body[i] == Gen(i, prog[i]);
        PushLoadsSymbol(i, prog[i]);
        assert prog[i] == Instruction(Push, v);
        assert v in order;
        var k :| 0 <= k < |order| && order[k] == v;
        assert p.data[|FixedData| + k] == ConstantData(v);
      }
    }
  }

  // ---------------------------------------------------------------------
  // The programs of compiler_test.go and of the run-time error cases

  /** A token the drain loop keeps, followed by the rest of the scan. */
  lemma ScanCons(cs: seq<char>, p: nat, t: Token, q: nat, rest: seq<Token>, err: Option<string>)
    requires Lexer.Step(cs, p) == (t, q) && t.kind != EOF && t.kind != ERROR
    requires Scan(cs, q) == (rest, err)
    ensures Scan(cs, p) == ([Rewrite(t)] + rest, err)
  {
    ScanStep(cs, p);
  }

  /** The drain loop stops at the end of the input. */
  lemma ScanEnd(cs: seq<char>, p: nat)
    requires p >= |cs|
    ensures Scan(cs, p) == ([], None)
  {
    Lexer.EofForever(cs, p);
    ScanStep(cs, p);
  }

  /** The empty expression and one that starts with an operator are
      rejected. */
  lemma EmptyAndOperatorRejected()
    ensures TokenizeError([], "") == Some(EmptyInput)
    ensures TokenizeError([], "+") == Some(NoLeadingNumber)
  {
    ScanEnd("", 0);
    var cs := "+";
    assert Lexer.SkipFrom(cs, 0) == 0;
    Lexer.StepAtOperator(cs, 0, 0, PLUS);
    ScanEnd(cs, 1);
    ScanCons(cs, 0, Token(PLUS, "+"), 1, [], None);
  }

  /** An unknown word stops tokenizing with an error that names it. */
  lemma UnknownWordRejected()
    ensures TokenizeError([], UnknownWordInput) == Some(LexerError + "Unknown token $")
  {
    var cs := UnknownWordInput;
    var err := Some(LexerError + "Unknown token $");
    UnknownWordStep();
    ScanStep(cs, 3);
    assert Lexer.SkipFrom(cs, 1) == 2;
    Lexer.DigitStep(cs, 1, 2);
    ScanCons(cs, 1, Token(NUMBER, "5"), 3, [], err);
    assert [Rewrite(Token(NUMBER, "5"))] + [] == [Token(NUMBER, "5")];
    assert Lexer.SkipFrom(cs, 0) == 0;
    Lexer.DigitStep(cs, 0, 0);
    ScanCons(cs, 0, Token(NUMBER, "3"), 1, [Token(NUMBER, "5")], err);
  }

  const UnknownWordInput := "3 5 $"

  /** The lexer's step at the unknown word. */
  lemma UnknownWordStep()
    ensures Lexer.Step(UnknownWordInput, 3) == (Token(ERROR, "Unknown token $"), 6)
  {
    var cs := UnknownWordInput;
    assert Lexer.SkipFrom(cs, 3) == 4;
    Lexer.StepAtIdentifier(cs, 3, 4);
    assert Lexer.IdentEnd(cs, 4) == 5;
    assert cs[4..5] == "$";
    assert LookupIdentifier("$") == ERROR;
    assert Lexer.Sub(cs, 4, 5) == "$";
    assert "Unknown token " + "$" == "Unknown token $";
  }

  /** A program of more than one token that ends with a number is
      rejected. */
  lemma TrailingNumberRejected()
    ensures TokenizeError([], "3 3") == Some(TrailingNumber)
  {
    var cs := "3 3";
    assert Lexer.SkipFrom(cs, 0) == 0;
    Lexer.DigitStep(cs, 0, 0);
    assert Lexer.SkipFrom(cs, 1) == 2;
    Lexer.DigitStep(cs, 1, 2);
    ScanEnd(cs, 3);
    ScanCons(cs, 1, Token(NUMBER, "3"), 3, [], None);
    assert [Rewrite(Token(NUMBER, "3"))] + [] == [Token(NUMBER, "3")];
    ScanCons(cs, 0, Token(NUMBER, "3"), 1, [Token(NUMBER, "3")], None);
  }

  /** A single number is a valid program, and `pi` is the number
      3.141593. */
  lemma SingleNumbersAccepted()
    ensures Scan("3", 0) == ([Token(NUMBER, "3")], None) && TokenizeError([], "3") == None
    ensures Scan("pi", 0) == ([Token(NUMBER, PiLiteral)], None) && TokenizeError([], "pi") == None
  {
    assert Lexer.SkipFrom("3", 0) == 0;
    Lexer.DigitStep("3", 0, 0);
    assert ["3"[0]] == "3";
    ScanEnd("3", 1);
    ScanCons("3", 0, Token(NUMBER, "3"), 1, [], None);
    assert [Rewrite(Token(NUMBER, "3"))] + [] == [Token(NUMBER, "3")];
    var cs := "pi";
    assert Lexer.SkipFrom(cs, 0) == 0;
    Lexer.StepAtIdentifier(cs, 0, 0);
    assert Lexer.IdentEnd(cs, 0) == 2;
    assert cs[0..2] == "pi";
    assert Lexer.Step(cs, 0) == (Token(PI, "pi"), 3);
    ScanEnd(cs, 3);
    ScanCons(cs, 0, Token(PI, "pi"), 3, [], None);
    assert [Rewrite(Token(PI, "pi"))] + [] == [Token(NUMBER, PiLiteral)];
  }

  /** Two one-digit numbers and an operator, as `3 4 +` and `3 0 /` are
      lexed. */
  lemma BinaryScan(cs: string, a: char, b: char, op: char, k: Kind)
    requires cs == [a, ' ', b, ' ', op]
    requires Lexer.IsDigit(a) && Lexer.IsDigit(b) && Lexer.OperatorKind(op) == Some(k) && op != '-'
    ensures Scan(cs, 0) == ([Token(NUMBER, [a]), Token(NUMBER, [b]), Token(k, [op])], None)
  {
    BinaryScanTail(cs, a, b, op, k);
    assert Lexer.SkipFrom(cs, 0) == 0;
    Lexer.DigitStep(cs, 0, 0);
    ScanCons(cs, 0, Token(NUMBER, [a]), 1, [Token(NUMBER, [b]), Token(k, [op])], None);
    assert [Rewrite(Token(NUMBER, [a]))] + [Token(NUMBER, [b]), Token(k, [op])]
      == [Token(NUMBER, [a]), Token(NUMBER, [b]), Token(k, [op])];
  }

  /** BinaryScan from the space after the first number. */
  lemma BinaryScanTail(cs: string, a: char, b: char, op: char, k: Kind)
    requires cs == [a, ' ', b, ' ', op]
    requires Lexer.IsDigit(a) && Lexer.IsDigit(b) && Lexer.OperatorKind(op) == Some(k) && op != '-'
    ensures Scan(cs, 1) == ([Token(NUMBER, [b]), Token(k, [op])], None)
  {
    BinaryScanOperator(cs, a, b, op, k);
    assert Lexer.SkipFrom(cs, 1) == 2;
    Lexer.DigitStep(cs, 1, 2);
    ScanCons(cs, 1, Token(NUMBER, [b]), 3, [Token(k, [op])], None);
    assert [Rewrite(Token(NUMBER, [b]))] + [Token(k, [op])] == [Token(NUMBER, [b]), Token(k, [op])];
  }

  /** BinaryScan from the space before the operator. */
  lemma BinaryScanOperator(cs: string, a: char, b: char, op: char, k: Kind)
    requires cs == [a, ' ', b, ' ', op]
    requires Lexer.OperatorKind(op) == Some(k) && op != '-'
    ensures Scan(cs, 3) == ([Token(k, [op])], None)
  {
    assert Lexer.SkipFrom(cs, 3) == 4;
    Lexer.StepAtOperator(cs, 3, 4, k);
    assert Lexer.NewToken(k, Lexer.CharAt(cs, 4)) == Token(k, [op]);
    ScanEnd(cs, 5);
    ScanCons(cs, 3, Token(k, [op]), 5, [], None);
    assert [Rewrite(Token(k, [op]))] + [] == [Token(k, [op])];
  }

  /** `3 4 +` compiles to two pushes and an add, and reaches the print of
      its result. */
  lemma AddExample()
    ensures TokenizeError([], "3 4 +") == None
    ensures InternalForm(Scan("3 4 +", 0).0) == [Instruction(Push, "3"), Instruction(Push, "4"), Instruction(Plus, "")]
    ensures Predicted(InternalForm(Scan("3 4 +", 0).0)) == Printed
  {
    BinaryScan("3 4 +", '3', '4', '+', PLUS);
    AddProgram();
    AddPrints();
  }

  lemma AddProgram()
    ensures InternalForm([Token(NUMBER, "3"), Token(NUMBER, "4"), Token(PLUS, "+")])
      == [Instruction(Push, "3"), Instruction(Push, "4"), Instruction(Plus, "")]
  {
    var ts := [Token(NUMBER, "3"), Token(NUMBER, "4"), Token(PLUS, "+")];
    assert ts[..2][..1] == [ts[0]] && ts[..2] == ts[..2][..1] + [ts[1]];
    assert ts[..2][..1][..0] == [];
  }

  lemma AddPrints()
    ensures Predicted([Instruction(Push, "3"), Instruction(Push, "4"), Instruction(Plus, "")]) == Printed
  {
  }

  /** `3 0 /` compiles, and its depth bookkeeping reaches the print of the
      result: the zero divisor is caught only when the program runs, by the
      divide block's own check (DivideChecksFirst), which Predicted and Exit
      do not follow. */
  lemma DivideByZeroCompiles()
    ensures TokenizeError([], "3 0 /") == None
    ensures InternalForm(Scan("3 0 /", 0).0) == [Instruction(Push, "3"), Instruction(Push, "0"), Instruction(Divide, "")]
    ensures Predicted(InternalForm(Scan("3 0 /", 0).0)) == Printed
    ensures DivisionByZero in Generator.Targets(Generator.Gen(2, Instruction(Divide, "")))
  {
    BinaryScan("3 0 /", '3', '0', '/', SLASH);
    DivideProgram();
    DividePasses();
    Generator.DivideChecksFirst(2, Instruction(Divide, ""));
  }

  lemma DivideProgram()
    ensures InternalForm([Token(NUMBER, "3"), Token(NUMBER, "0"), Token(SLASH, "/")])
      == [Instruction(Push, "3"), Instruction(Push, "0"), Instruction(Divide, "")]
  {
    var ts := [Token(NUMBER, "3"), Token(NUMBER, "0"), Token(SLASH, "/")];
    assert ts[..2][..1] == [ts[0]] && ts[..2] == ts[..2][..1] + [ts[1]];
    assert ts[..2][..1][..0] == [];
  }

  lemma DividePasses()
    ensures Predicted([Instruction(Push, "3"), Instruction(Push, "0"), Instruction(Divide, "")]) == Printed
  {
  }

  /** The stack-discipline cases compile, and their programs stop at the
      handler for the mistake: `4 +` has too few operands and `3 3 3 +`
      leaves two values behind. */
  lemma StackDisciplineExamples()
    ensures TokenizeError([], "4 +") == None
    ensures Predicted(InternalForm(Scan("4 +", 0).0)) == Aborted(StackError)
    ensures Predicted([Instruction(Push, "3"), Instruction(Push, "3"), Instruction(Push, "3"), Instruction(Plus, "")])
      == Aborted(StackTooFull)
  {
    ShortScan();
    ShortProgram();
    ShortAborts();
    LeftoverAborts();
  }

  lemma ShortScan()
    ensures Scan("4 +", 0) == ([Token(NUMBER, "4"), Token(PLUS, "+")], None)
    ensures TokenizeError([], "4 +") == None
  {
    var cs := "4 +";
    assert Lexer.SkipFrom(cs, 0) == 0;
    Lexer.DigitStep(cs, 0, 0);
    assert Lexer.SkipFrom(cs, 1) == 2;
    Lexer.StepAtOperator(cs, 1, 2, PLUS);
    ScanEnd(cs, 3);
    ScanCons(cs, 1, Token(PLUS, "+"), 3, [], None);
    assert [Rewrite(Token(PLUS, "+"))] + [] == [Token(PLUS, "+")];
    ScanCons(cs, 0, Token(NUMBER, "4"), 1, [Token(PLUS, "+")], None);
    var ts := [Token(NUMBER, "4"), Token(PLUS, "+")];
    assert [Rewrite(Token(NUMBER, "4"))] + [Token(PLUS, "+")] == ts;
    assert [] + ts == ts;
  }

  lemma ShortProgram()
    ensures InternalForm([Token(NUMBER, "4"), Token(PLUS, "+")]) == [Instruction(Push, "4"), Instruction(Plus, "")]
  {
    var ts := [Token(NUMBER, "4"), Token(PLUS, "+")];
    assert ts[..1] == [ts[0]] && ts[..1][..0] == [];
  }

  lemma ShortAborts()
    ensures Predicted([Instruction(Push, "4"), Instruction(Plus, "")]) == Aborted(StackError)
  {
  }

  lemma LeftoverAborts()
    ensures Predicted([Instruction(Push, "3"), Instruction(Push, "3"), Instruction(Push, "3"), Instruction(Plus, "")])
      == Aborted(StackTooFull)
  {
  }
}
