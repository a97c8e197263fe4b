# math-compiler, modelled in Dafny

math-compiler reads an arithmetic expression in reverse Polish notation, such as
`3 4 + 2 *`, and compiles it to x86-64 assembly. The program keeps its operands on
the machine stack. A counter `[depth]` guards that stack: every block except a push first checks
that enough operands are there. The footer prints the result when exactly one value
remains, and jumps to an error handler otherwise.

The model follows the program's packages, one Dafny module each:

- `Token` (`token.dfy`): token kinds, the keyword table and `LookupIdentifier`.
- `Lexer` (`lexer.dfy`): the cursor-based lexer as a class with `position`,
  `readPosition`, `ch` and `characters`. Each method is proved against a specification
  function on the input text. `Step` is one call of `NextToken` and `Tokens` is the
  whole drain.
- `Instructions` (`instructions.dfy`): the instruction datatype, including the
  `Factorial` variant that the compiler uses but the package does not declare. It also
  holds an abstract RPN stack machine (`Step`, `Exec`), which gives each instruction
  its meaning on the stack.
- `Strings` (`strings.dfy`): `strings.Replace` (`ReplaceAll`) and the decimal
  spelling of an index (`Dec`), with the facts the generator needs about them.
- `Escape` (`escape.dfy`): `escapeConstant`, the symbol under which a literal is
  declared.
- `Generator` (`generator.dfy`): the `gen*` functions. A block is structured
  lines with explicit placeholder holes, plus the depth it checks for and the depth
  change it makes. `GenIsReplace` proves that filling the holes gives exactly the text
  that `strings.Replace` makes of the model's comment-free rendering of the Go
  template. `DepthFollowsStack` proves that
  the depth counter follows the abstract machine's stack height.
- `Assembly` (`assembly.dfy`): the header, data section, prologue and footer, and
  where a generated program ends up (`Exit`).
- `Runtime` (`runtime.dfy`): the 64-bit integer loops of the power and factorial
  blocks, as methods with an overflow result.
- `Compiler` (`compiler.dfy`): the `Compiler` object (`tokenize`,
  `makeinternalform`, `output`, `Compile`) as a class whose fields the methods
  update. `Pipeline` proves the end-to-end theorem. The output of an accepted
  expression is the rendered program. The depth guards pass and the footer's
  one-value check succeeds exactly when the RPN machine runs without underflow and
  ends with one value; otherwise the program exits through `stack_error` or
  `stack_too_full`. The value-dependent exits (`division_by_zero`,
  `register_overflow`) are not followed. Every pushed literal is declared in the
  data section under the symbol its block loads.
- `Stack` (`stack.dfy`): the standalone string stack, as a class.

The model follows the code where the tests disagree with it. `TestParseBogus` expects
one error token per character of `steve`, but the lexer reads the whole run
and yields `Unknown token steve` (`Lexer.BogusExample`). The compiler and lexer tests
also call APIs that the code does not have (`Tokenize`, `InternalForm`, `token.INT`).
Those tests are cited only where their inputs and expectations agree with the code.

Two quirks of the lexer are modelled as they are written. After a signed number
or an identifier, `NextToken` reads one extra character, so `-3+` lexes to
`-3` and then EOF (`Lexer.SignedSwallowsNext`). A NUL character in the input ends
the token stream, just like the end of the input.

## Model

| member | source | states |
|---|---|---|
| Token.LookupIdentifier | token/token.go:62-67 | the kind found is ERROR or one of the nine keyword kinds |
| Token.LookupIsTable | token/token.go:49-67 | a string in the table looks up to its entry; a string looks up to ERROR exactly when it is not in the table |
| Token.LookupSpelling | token/token.go:49-59 | for each keyword kind, lookup yields that kind exactly on its own spelling (abs, cos, dup, e, pi, sin, sqrt, swap, tan) |
| Token.LookupNeverOperator | token/token.go:16-30 | lookup never yields NUMBER, EOF, IDENT, FACTORIAL or an operator kind |
| Token.LookupIsCaseSensitive | token/token.go:63 | `SIN` is ERROR while `sin` is SIN |
| Token.NameInjective | token/token.go:15-46 | distinct token kinds have distinct type strings |
| Instructions.TagInjective | instructions/instructions.go:14-67 | the instruction tags are pairwise distinct |
| Instructions.Step | instructions/instructions.go:18-66 | a machine step fails exactly when the stack holds fewer entries than the instruction pops; otherwise the height changes by pushes minus pops and the entries below the popped ones are untouched |
| Instructions.ExecSnoc | instructions/instructions.go:69-77 | running a program with one more instruction is running the program and then stepping that instruction; an underflow stops the run |
| Instructions.SwapTwice | instructions/instructions.go:62-63 | on at least two entries (the guard of genSwap), Swap keeps the multiset of entries, exchanges the top two, and a second Swap gives the stack back |
| Instructions.DupCopiesTop | instructions/instructions.go:65-66 | on any stack of at least one entry (the guard of genDup), Dup adds exactly one copy of the top entry and leaves all entries below in place |
| Stack.Popped | stack/stack.go:35-42 | popping fails exactly on the empty stack, leaving it unchanged with an empty result; otherwise it returns the last element and the stack without it |
| Stack.PushThenPop | stack/stack.go:23-43 | a pop right after pushing v returns v and restores the previous contents |
| Stack.PopsReverse | stack/stack.go:23-43 | popping as many times as values were pushed returns them in reverse order and restores the previous contents |
| Stack.Stack.New | stack/stack.go:18-20 | a new stack is empty |
| Stack.Stack.Push | stack/stack.go:23-28 | the value is appended at the top |
| Stack.Stack.Pop | stack/stack.go:31-43 | results and new contents are those of `Popped` on the old contents |
| Stack.Stack.Empty | stack/stack.go:46-53 | true exactly when the stack holds nothing |
| Stack.Scenario | stack/stack_test.go:8-45 | the model's own scenario, extending the tests' single value `"33"` with a second value `"42"`: a new stack is empty, is not empty after a push, pops its values last-in first-out, and a pop on an empty stack is an error |
| Lexer.SkipFrom | lexer/lexer.go:93-97 | the cursor stops at the first character that is not space, tab, LF or CR, and everything it passes is one of those |
| Lexer.DigitsEnd | lexer/lexer.go:100-111 | the end of the maximal run of digits |
| Lexer.IdentEnd | lexer/lexer.go:165-183 | the end of the maximal run of characters that are not digits, whitespace or NUL |
| Lexer.Decimal | lexer/lexer.go:114-143 | the literal is the text between the start and the cursor, and the cursor stops at a non-digit |
| Lexer.DecimalUnsigned | lexer/lexer.go:114-143 | the literal read is digits, optionally followed by a point and digits; the point is taken only when a digit follows it |
| Lexer.NumberStep | lexer/lexer.go:47-58 | a number token's literal is the text read, and the cursor ends one character after it when the number is signed |
| Lexer.NumberStepLiteral | lexer/lexer.go:47-58 | a number literal matches an optional minus sign, digits, and optionally a point and digits |
| Lexer.Step | lexer/lexer.go:36-85 | a call yields EOF exactly when the first non-whitespace character is NUL, and every other call advances the cursor |
| Lexer.Tokens | lexer/lexer.go:36-85 | draining the lexer ends with EOF |
| Lexer.OperatorKind | lexer/lexer.go:41-66 | exactly the characters `+ - * / % ^` are operators |
| Lexer.OperatorToken | lexer/lexer.go:41-66 | an operator token is produced exactly at an operator character that is not a minus before a digit; its literal is that character and the cursor moves one past it |
| Lexer.SpacedOperatorsTokens | lexer/lexer.go:36-66 | a run of operator characters, each after a space, lexes to one operator token per character, a minus sign included, and then EOF |
| Lexer.NumberToken | lexer/lexer.go:47-73 | every NUMBER literal is well formed and is the input text at the token's start, and the cursor lands right after it, or one character further when it is signed |
| Lexer.StepAtOperator | lexer/lexer.go:41-66 | at an operator character, NextToken yields that operator |
| Lexer.StepAtEnd | lexer/lexer.go:67-69 | at NUL, NextToken yields EOF with an empty literal |
| Lexer.StepAtIdentifier | lexer/lexer.go:70-83 | at any other non-digit, NextToken reads a word |
| Lexer.StepAtNumber | lexer/lexer.go:47-73 | at a digit, or a minus before a digit, NextToken reads a number |
| Lexer.StepElsewhere | lexer/lexer.go:40-85 | a NUMBER comes only from a digit or a minus before a digit |
| Lexer.UnsignedNumber | lexer/lexer.go:71-73 | an unsigned number consumes exactly its own digits |
| Lexer.IdentifierToken | lexer/lexer.go:75-83 | a keyword's literal is the word; an unknown word gives ERROR with literal `Unknown token ` followed by the word; the cursor ends one past the word |
| Lexer.NoIdentOrFactorial | lexer/lexer.go:36-85 | the lexer never yields IDENT or FACTORIAL |
| Lexer.EofAtEnd | lexer/lexer.go:67-69 | on input without NUL, EOF comes exactly when only whitespace remains |
| Lexer.EofForever | lexer/lexer.go:25-33 | once the input is exhausted, every call yields EOF with an empty literal |
| Lexer.TokensEndAtFirstEof | lexer/lexer.go:67-69 | only the last token of the drain is EOF |
| Lexer.DrainBound | lexer/lexer.go:25-33 | the drain yields at most one more token than the input has characters |
| Lexer.DigitStep | lexer/lexer.go:71-72 | a lone digit is a NUMBER token by itself |
| Lexer.SignedSwallowsNext | lexer/lexer.go:47-84 | `-3+` lexes to NUMBER `-3` and then EOF, because the `+` is consumed after the signed number |
| Lexer.NumbersExample | lexer/lexer_test.go:10-21 | `3 43 -17 -3` lexes to the four numbers and EOF |
| Lexer.OperatorsExample | lexer/lexer_test.go:36-50 | `+ - * / % ^ -` lexes to the seven operators and EOF |
| Lexer.BogusExample | lexer/lexer.go:75-81 | `steve 3` lexes to ERROR `Unknown token steve`, NUMBER `3` and EOF |
| Lexer.Lexer.constructor | lexer/lexer.go:18-22 | a new lexer holds the input and stands on its first character |
| Lexer.Lexer.ReadChar | lexer/lexer.go:25-33 | the cursor moves to the read position and `ch` is the character there, or NUL past the end |
| Lexer.Lexer.PeekChar | lexer/lexer.go:146-151 | the character after the cursor, or NUL past the end |
| Lexer.Lexer.SkipWhitespace | lexer/lexer.go:93-97 | the cursor moves to `SkipFrom` of where it was |
| Lexer.Lexer.ReadNumber | lexer/lexer.go:100-111 | the cursor moves past the run of digits, which is returned |
| Lexer.Lexer.ReadDecimal | lexer/lexer.go:114-143 | the token and the new cursor are `Decimal` of the old cursor |
| Lexer.Lexer.ReadIdentifier | lexer/lexer.go:165-178 | the cursor moves past the identifier run, which is returned |
| Lexer.Lexer.NextToken | lexer/lexer.go:36-85 | the token and the new cursor are `Step` of the old cursor |
| Lexer.Lexer.ReadMinus | lexer/lexer.go:47-62 | the minus branch yields what `Step` yields there |
| Lexer.Lexer.ReadWord | lexer/lexer.go:75-83 | the word branch yields what `Step` yields there |
| Strings.ReplaceCharPointwise | compiler/generator.go:27 | replacing one character by another keeps the length and changes exactly the matching positions |
| Strings.ReplaceCharRemoves | compiler/generator.go:26-29 | after the replacement the replaced character no longer occurs |
| Strings.ReplaceAtFront | compiler/generator.go:191 | an occurrence at the front is replaced and the scan resumes after it |
| Strings.ReplaceSplit | compiler/generator.go:191 | replacement distributes over a split whose left part cannot end inside an occurrence |
| Strings.Dec | compiler/generator.go:191 | the decimal spelling of an index is a non-empty run of digits |
| Strings.DecRoundTrip | compiler/generator.go:191 | reading the decimal spelling back gives the index |
| Strings.DecInjective | compiler/generator.go:414 | distinct indices have distinct spellings |
| Escape.EscapeConstant | compiler/generator.go:14-31 | the symbol contains no point and no minus sign |
| Escape.EscapeShape | compiler/generator.go:14-31 | the symbol is the sign prefix followed by the unsigned literal with every point turned into an underscore |
| Escape.EscapePrefix | compiler/generator.go:20-24 | the symbol starts with `const_`, and with `const_neg_` exactly when the literal is negative |
| Escape.EscapeInjective | compiler/generator.go:17-29 | two lexer literals share a symbol exactly when they are equal or are a negative zero and its unsigned twin |
| Escape.SameSymbolSameLiteral | compiler/generator.go:17-29 | equal symbols come only from equal literals or a negative-zero pair |
| Escape.NegativeZeroSameSymbol | compiler/generator.go:17-24 | a negative zero gets the symbol of its unsigned twin |
| Escape.NegativeZeroCollides | compiler/generator.go:17-24 | `-0` and `0` are both declared as `const_0` |
| Escape.EscapeKeeps | compiler/generator.go:14-31 | escaping adds no character beyond those of the literal and of the prefix |
| Escape.EscapeUnsignedExamples | compiler/generator_test.go:12-13 | `3` becomes `const_3` and `0.03` becomes `const_0_03` |
| Escape.EscapeSignedExamples | compiler/generator_test.go:14-15 | `-3` becomes `const_neg_3` and `-3.3` becomes `const_neg_3_3` |
| Runtime.Power | compiler/generator.go:361-401 | the power loop gives 0 for exponent 0, the base for exponent 1, and otherwise the power, or the overflow jump when it leaves the 64-bit range |
| Runtime.Factorial | compiler/generator.go:157-183 | the factorial loop gives 0 for n <= 0, and otherwise n!, or the overflow jump when it leaves the 64-bit range |
| Runtime.PowOutOfRangeStays | compiler/generator.go:388-396 | once a partial product leaves the 64-bit range, the final power is out of range too, so an early overflow jump agrees with the final result |
| Runtime.OutOfRangeGrows | compiler/generator.go:390-393 | an out-of-range product stays out of range when it is multiplied by a factor of magnitude at least 2 |
| Runtime.SmallBasePow | compiler/generator.go:384-396 | powers of -1, 0 and 1 never overflow |
| Runtime.PowerExamples | compiler/compiler_test.go:97-100 | the powers of `2 8 ^`, `2 0 ^`, `2 1 ^` and `2 12 ^` are 256, 0, 2 and 4096, and (-3)^3 = -27 |
| Runtime.PowerBoundary | compiler/generator.go:390-393 | 2^63 overflows, while (-2)^63 and 2^62 do not |
| Runtime.FactorialBoundary | compiler/generator.go:161-177 | 20! fits, 21! overflows, and 0 and -4 give 0 |
| Generator.DepthContract | compiler/generator.go:35-534 | each block checks for as many entries as its instruction pops, and changes the counter by pushes minus pops |
| Generator.BlockFill | compiler/generator.go:191 | filling a hole in the structured block renders to `strings.Replace` of the rendered block |
| Generator.GenIsReplace | compiler/generator.go:142-436 | every generated block renders to the text that `strings.Replace` makes of the model's comment-free rendering of its `gen*` template, with the placeholders replaced as that function replaces them |
| Generator.PowerIsReplace | compiler/generator.go:340-415 | the power block is the template with `#ID` replaced by the index |
| Generator.FactorialIsReplace | compiler/generator.go:142-192 | the factorial block is the template with `#ID` replaced by the index |
| Generator.PushIsReplace | compiler/generator.go:418-436 | the push block is the template with `#VALUE` replaced by the literal, then `#ESCAPED` by its symbol |
| Generator.TemplateIsText | compiler/generator.go:35-138 | the blocks without placeholders are their template text |
| Generator.TemplateHoles | compiler/generator.go:142-436 | each template holds only the placeholders its generator function replaces |
| Generator.FillRemoves | compiler/generator.go:191 | filling a placeholder removes it and keeps the lines well formed |
| Generator.NoPlaceholderLeft | compiler/generator.go:414-433 | no placeholder survives in a generated block: every field is plain text without `#` |
| Generator.TemplateShape | compiler/generator.go:142-415 | each template's labels and jumps use only its own stems and handlers, and each stem is both defined and used |
| Generator.BlockSkeleton | compiler/generator.go:142-415 | a block defines its template's stems suffixed with the index, and jumps to exactly those labels, its handlers, and `stack_error` when it checks the depth |
| Generator.LabelsUnique | compiler/generator.go:340-415 | blocks at different indices define disjoint labels, none of which is `main` or a footer label |
| Generator.JumpsClosed | compiler/generator.go:142-415 | every jump of a block targets a label of the block itself or of the footer |
| Generator.DivideChecksFirst | compiler/generator.go:97-108 | divide jumps to `division_by_zero` on a zero divisor before it divides |
| Generator.ModulusUnchecked | compiler/generator.go:228-267 | modulus divides with no check on the divisor and jumps only to `stack_error` |
| Generator.PushLoadsSymbol | compiler/generator.go:418-436 | the push block loads the escaped symbol and names the literal in its comment |
| Generator.BlockInputs | compiler/generator.go:35-534 | only a push block depends on the literal, and only power and factorial blocks depend on the index |
| Generator.Blocks | compiler/compiler.go:374-427 | one block per instruction |
| Generator.RunTracksExec | compiler/generator.go:35-534 | from any stack, the depth counter stays equal to the machine's stack height, and a failing guard is exactly a machine underflow |
| Generator.DepthFollowsStack | compiler/generator.go:35-534 | from an empty stack, the run of the depth guards stops at `stack_error` exactly when the machine underflows, and otherwise ends at the final stack height |
| Assembly.ConstantsData | compiler/compiler.go:337-340 | one data line per constant, in enumeration order, declaring its escaped symbol as that literal |
| Assembly.PrologueShape | compiler/compiler.go:342-365 | the prologue defines only `main` and jumps nowhere, with or without the debug break |
| Assembly.PrintResultShape | compiler/compiler.go:430-444 | the print section defines no label and can jump only to `stack_too_full` |
| Assembly.FooterShape | compiler/compiler.go:429-491 | the footer defines exactly the five handler labels and jumps only to `stack_too_full` and `print_msg_and_exit` |
| Assembly.HandlerMessages | compiler/compiler.go:327-476 | each handler loads its own message, which the data section declares, and distinct handlers have distinct messages |
| Assembly.HandlersReachExit | compiler/compiler.go:450-489 | every handler but `stack_error` jumps to `print_msg_and_exit`, and `stack_error` falls through into it |
| Assembly.ProgramOutcome | compiler/compiler.go:429-434 | following the depth counter, a program exits at `stack_error` on underflow; otherwise the footer's check passes when exactly one value remains and goes to `stack_too_full` when any other number remains |
| Assembly.ProgramLabelsUnique | compiler/compiler.go:374-493 | no label is defined twice across the blocks, the prologue and the footer |
| Assembly.ProgramJumpsClosed | compiler/compiler.go:374-493 | every jump of the program targets a label it defines |
| Assembly.ConstantNotFixed | compiler/compiler.go:321-340 | a constant's symbol never collides with a fixed data name |
| Assembly.ConstantSymbols | compiler/compiler.go:337-340 | the declared symbols of two constants coincide exactly when the literals are equal or form a negative-zero pair |
| Compiler.ConstantLiterals | compiler/compiler.go:145-152 | the literals substituted for `pi` and `e` are well-formed number literals |
| Compiler.Rewrite | compiler/compiler.go:145-152 | `pi` and `e` become NUMBER tokens, and every other token is kept |
| Compiler.ScanStep | compiler/compiler.go:128-156 | one turn of the drain loop: stop at EOF, fail with the lexer's message at ERROR, else append the rewritten token |
| Compiler.ScanCollected | compiler/compiler.go:128-156 | no collected token is EOF, ERROR, IDENT, PI or E |
| Compiler.ScanFollowsTokens | compiler/compiler.go:128-156 | the collected tokens are the lexer's tokens up to the first EOF or ERROR, with `pi` and `e` rewritten |
| Compiler.ToInstruction | compiler/compiler.go:203-285 | each token kind that reaches it maps to an instruction; only NUMBER maps to Push, carrying the literal |
| Compiler.ToInstructionInjective | compiler/compiler.go:203-285 | distinct token kinds map to distinct instruction kinds |
| Compiler.InternalForm | compiler/compiler.go:198-286 | at most one instruction per token |
| Compiler.InternalFormSnoc | compiler/compiler.go:198-286 | one more token appends its instruction, if it has one |
| Compiler.OnePerToken | compiler/compiler.go:198-286 | on collected tokens, exactly one instruction per token, in order, each the token's own |
| Compiler.ConstantsArePushed | compiler/compiler.go:230-237 | a literal is in the constant set exactly when some instruction pushes it |
| Compiler.ValuesHashFree | compiler/compiler.go:230-237 | pushed values are number literals, free of placeholder marks |
| Compiler.AcceptedTokens | compiler/compiler.go:128-181 | when tokenizing succeeds, every collected token is one the compiler keeps, numbers are well formed, and the first of at least one token is a NUMBER |
| Compiler.PushesDeclared | compiler/compiler.go:230-237 | whatever order the constants are written in, each push block loads a symbol that the data section declares for its literal |
| Compiler.BodyIsBlocks | compiler/compiler.go:370-427 | the body text is the blocks of the instructions, in order |
| Compiler.OutputIsProgram | compiler/compiler.go:292-494 | the output text is the rendered program: header, constants, prologue, blocks and footer |
| Compiler.PrologueText | compiler/compiler.go:342-365 | the prologue carries `int 03` exactly when debugging |
| Compiler.Compiler.New | compiler/compiler.go:75-78 | a new compiler holds the expression, no debug flag and nothing else |
| Compiler.Compiler.SetDebug | compiler/compiler.go:81-83 | only the debug flag changes |
| Compiler.Compiler.Tokenize | compiler/compiler.go:118-187 | the tokens grow by the drained tokens, and the error is the first of: lexer error, empty program, leading non-number, trailing number |
| Compiler.Compiler.MakeInternalForm | compiler/compiler.go:193-288 | instructions grow by the internal form of the tokens, and constants by their literals |
| Compiler.Compiler.AddToken | compiler/compiler.go:203-285 | one token's instruction and constant are added |
| Compiler.Compiler.Output | compiler/compiler.go:292-494 | the text is the rendered program for some enumeration of the constants |
| Compiler.Compiler.PrologueLines | compiler/compiler.go:342-365 | the prologue, with the debug break when debugging |
| Compiler.Compiler.ConstantLines | compiler/compiler.go:337-340 | one data line per constant, for an enumeration of the set |
| Compiler.Compiler.Body | compiler/compiler.go:370-427 | the blocks of the instructions, in order |
| Compiler.Compiler.Compile | compiler/compiler.go:87-111 | on an error, the output is empty and nothing is generated; otherwise instructions, constants and output are as generated from the tokens |
| Compiler.CompileExpression | compiler/compiler.go:75-111 | a fresh compiler fails exactly when tokenizing the expression fails, with empty output, and otherwise returns the generated program |
| Compiler.Pipeline | compiler/compiler.go:87-111 | an accepted expression gives one instruction per token, starting with a push; its output is the rendered program; that program's depth guards pass and its footer finds one value exactly when the RPN machine runs without underflow and ends with one value, and otherwise it exits at `stack_error` or `stack_too_full`; every pushed literal is declared under the symbol its block loads |
| Compiler.EmptyAndOperatorRejected | compiler/compiler_test.go:14-17 | the empty expression and `+` are rejected with their messages |
| Compiler.UnknownWordRejected | compiler/compiler_test.go:20 | `3 5 $` is rejected with the lexer's `Unknown token $` |
| Compiler.TrailingNumberRejected | compiler/compiler_test.go:23 | `3 3` is rejected as ending with a number |
| Compiler.SingleNumbersAccepted | compiler/compiler.go:161-181 | `3` is accepted, and `pi` is accepted as the number 3.141593 |
| Compiler.AddExample | compiler/compiler_test.go:43 | `3 4 +` compiles to two pushes and an add, and reaches the print of its result |
| Compiler.DivideByZeroCompiles | compiler/generator.go:94-100 | on the model's own input `3 0 /`: the compiler accepts it as two pushes and a divide, the depth bookkeeping reaches the print, and only the divide block's own check jumps to `division_by_zero` |
| Compiler.StackDisciplineExamples | compiler/compiler.go:470-476 | `4 +` compiles and exits at `stack_error`; three pushes and an add exit at `stack_too_full` |

## Left out

- `main.go`: flag parsing, writing to standard output, running `gcc` and the produced binary. These are I/O and process control.
- The x86 and x87 meaning of the template instructions: the floating-point operations, `printf` with `%g`, and the rounding with `frndint`. Templates are kept as lines of text, and only their depth guard and delta, labels, jumps and placeholders are reasoned about.
- The comments and the alignment of the header, footer and templates are not reproduced. Only the block markers and the push comment that names the literal are kept, because the model reasons about structure, not layout.
- Escape.EscapeConstant: the sign test is a test on the text (a leading minus and a nonzero digit) rather than `strconv.ParseFloat` at 32 bits, so float32 underflow of tiny literals is not modelled.
- Runtime.Power: requires a non-negative exponent, because with a negative exponent the loop runs until overflow, or about 2^64 times for the bases 0 and ±1.
- Generator.ModulusUnchecked: states only that the divisor is not checked; the `cqo`/`div` fault on a zero or negative divisor is x86 behaviour and is not modelled.
- Assembly.ProgramOutcome: follows only the depth counter; the value-dependent jumps to `division_by_zero` and `register_overflow` are not part of `Exit`.
- Compiler.Pipeline: its outcome is the one the depth counter gives; a program that passes every depth check can still exit at `division_by_zero` (a zero divisor, as in `3 0 /`) or at `register_overflow` (power or factorial out of the 64-bit range), since those exits depend on run-time values.
- Compiler.Compiler.Output: the order in which constants are written is Go map order, which is unspecified; the model states the output for some enumeration of the constant set (a ghost `order`) and does not prove byte-identical output across runs.
- Compiler.Compiler.Compile: modelled on any compiler state, since `tokenize` appends without clearing; `CompileExpression` is the one-shot call on a fresh compiler.
- The `Factorial` instruction tag is not declared in the Go source; the model uses `!`, the spelling of the FACTORIAL token.
- A NUL in the middle of the input: the lexer returns EOF there and would carry on after it on a further call, but the compiler stops at the first EOF, so for the compiler NUL ends the input.
- The mutex of the string stack: locking is about concurrency, not the last-in first-out behaviour.
- The test APIs that the code does not have (`Tokenize`, `InternalForm`, `Output`, `token.INT`), and the per-character error tokens that `TestParseBogus` expects.
