/** Tokens produced by the lexer and the keyword table that classifies
    identifier text (token/token.go). */
module Token {

  /** The token kinds. In the Go code each kind is a distinct string
      constant; `Name` gives that string. */
  datatype Kind =
    | EOF | ERROR | NUMBER | IDENT
    | PLUS | MINUS | ASTERISK | SLASH
    | MOD | POWER | FACTORIAL
    | E | PI
    | ABS | COS | SIN | SQRT | TAN
    | DUP | SWAP
  {
    /** The string value of the kind's constant. */
    function Name(): string {
      match this
      case EOF => "EOF"
      case ERROR => "ERROR"
      case NUMBER => "NUMBER"
      case IDENT => "IDENT"
      case PLUS => "+"
      case MINUS => "-"
      case ASTERISK => "*"
      case SLASH => "/"
      case MOD => "%"
      case POWER => "^"
      case FACTORIAL => "!"
      case E => "e"
      case PI => "pi"
      case ABS => "abs"
      case COS => "cos"
      case SIN => "sin"
      case SQRT => "sqrt"
      case TAN => "tan"
      case DUP => "dup"
      case SWAP => "swap"
    }

    /** The kinds that the keyword table can produce. */
    predicate IsKeyword() {
      this in {ABS, COS, DUP, E, PI, SIN, SQRT, SWAP, TAN}
    }
  }

  datatype Token = Token(kind: Kind, literal: string)

  /** The reserved identifiers. */
  const Keywords: map<string, Kind> := map[
    "abs" := ABS,
    "cos" := COS,
    "dup" := DUP,
    "e" := E,
    "pi" := PI,
    "sin" := SIN,
    "sqrt" := SQRT,
    "swap" := SWAP,
    "tan" := TAN
  ]

  /** The spelling under which a keyword kind is reserved. */
  function Spelling(k: Kind): (s: string)
    requires k.IsKeyword()
  {
    match k
    case ABS => "abs"
    case COS => "cos"
    case DUP => "dup"
    case E => "e"
    case PI => "pi"
    case SIN => "sin"
    case SQRT => "sqrt"
    case SWAP => "swap"
    case TAN => "tan"
  }

  /** Classifies identifier text: a keyword's kind, otherwise ERROR. The
      table lookup is written out spelling by spelling, grouped by length;
      LookupIsTable shows that it is the lookup in Keywords. */
  function LookupIdentifier(identifier: string): (k: Kind)
    ensures k == ERROR || k.IsKeyword()
  {
    if |identifier| == 3 then
      if identifier == "abs" then ABS
      else if identifier == "cos" then COS
      else if identifier == "dup" then DUP
      else if identifier == "sin" then SIN
      else if identifier == "tan" then TAN
      else ERROR
    else if |identifier| == 1 then
      if identifier == "e" then E else ERROR
    else if |identifier| == 2 then
      if identifier == "pi" then PI else ERROR
    else if |identifier| == 4 then
      if identifier == "sqrt" then SQRT
      else if identifier == "swap" then SWAP
      else ERROR
    else ERROR
  }

  /** Looking up text finds the table's kind for a reserved spelling and
      ERROR for anything else. */
  lemma LookupIsTable(identifier: string)
    ensures identifier in Keywords ==> LookupIdentifier(identifier) == Keywords[identifier]
    ensures identifier !in Keywords <==> LookupIdentifier(identifier) == ERROR
  {
  }

  /** The table is a bijection between the nine spellings and the nine
      keyword kinds: each spelling looks up to its own kind, and only that
      spelling does. */
  lemma LookupSpelling(identifier: string, k: Kind)
    requires k.IsKeyword()
    ensures LookupIdentifier(identifier) == k <==> identifier == Spelling(k)
  {
  }

  /** Nothing outside the table is classified: NUMBER, EOF, IDENT, FACTORIAL
      and the operator kinds are never returned, so the lexer can never
      yield a FACTORIAL token. */
  lemma LookupNeverOperator(identifier: string)
    ensures LookupIdentifier(identifier) !in {NUMBER, EOF, IDENT, FACTORIAL, PLUS, MINUS, ASTERISK, SLASH, MOD, POWER}
  {
  }

  /** Lookup is exact: an upper-case spelling is not a keyword. */
  lemma LookupIsCaseSensitive()
    ensures LookupIdentifier("SIN") == ERROR
    ensures LookupIdentifier("sin") == SIN
  {
  }

  /** Distinct kinds have distinct constant strings, so comparing kinds as
      datatype values agrees with the Go code's string comparison. */
  lemma NameInjective(a: Kind, b: Kind)
    ensures a.Name() == b.Name() <==> a == b
  {
  }
}
