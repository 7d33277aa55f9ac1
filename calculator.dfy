/** `calculate_expression`: the calculator of the older service.  The text is cleaned
    down to digits, whitespace and `+ - * / ( ) . ,`, commas become decimal points, the text
    is split into tokens, and a recursive-descent parser evaluates the tokens while
    popping them off a shared list.  `*` and `/` bind tighter than `+` and `-`, all
    four associate to the left, a missing `)` is tolerated and tokens left over after
    a complete expression are ignored.  Every exception becomes an
    "Error in calculation: ..." text. */
module Calculator {
  import opened Wrappers
  import opened Text
  import opened Errors

  // ---------------------------------------------------------------------------
  // Cleaning and tokens

  /** The characters `re.sub(r'[^\d\s\+\-\*\/\(\)\.\,]', '', ...)` keeps. */
  predicate Kept(c: char) {
    IsDigit(c) || IsSpace(c) || c in "+-*/().,"
  }

  /** How many characters of `s` are kept. */
  function KeptCount(s: string): nat {
    if s == [] then 0 else (if Kept(s[0]) then 1 else 0) + KeptCount(s[1..])
  }

  /** The kept characters of `s`, and only those. */
  function Clean(s: string): (r: string)
    ensures forall i :: 0 <= i < |r| ==> Kept(r[i])
    ensures |r| <= |s|
  {
    if s == [] then []
    else (if Kept(s[0]) then [s[0]] else []) + Clean(s[1..])
  }

  /** Every kept character survives cleaning, in order: the cleaned text is as long as
      the number of kept characters, and each kept character sits at the position given
      by the kept characters before it. */
  lemma {:induction false} CleanKeepsInOrder(s: string)
    ensures |Clean(s)| == KeptCount(s)
    ensures forall i :: 0 <= i < |s| && Kept(s[i]) ==> KeptCount(s[..i]) < |Clean(s)| && Clean(s)[KeptCount(s[..i])] == s[i]
  {
    if s != [] {
      var rest := s[1..];
      CleanKeepsInOrder(rest);
      forall i | 0 < i < |s| && Kept(s[i])
        ensures KeptCount(s[..i]) < |Clean(s)| && Clean(s)[KeptCount(s[..i])] == s[i]
      {
        assert s[..i][1..] == rest[..i - 1] && s[i] == rest[i - 1];
      }
    }
  }

  datatype Token = Number(text: string, value: real) | Plus | Minus | Times | Slash | LParen | RParen
  {
    /** The token's text, as `float(token)` would report it. */
    function Text(): string {
      match this
      case Number(text, _) => text
      case Plus => "+"
      case Minus => "-"
      case Times => "*"
      case Slash => "/"
      case LParen => "("
      case RParen => ")"
    }
  }

  function OperatorToken(c: char): Option<Token> {
    match c
    case '+' => Some(Plus)
    case '-' => Some(Minus)
    case '*' => Some(Times)
    case '/' => Some(Slash)
    case '(' => Some(LParen)
    case ')' => Some(RParen)
    case _ => None
  }

  /** Length of the number token `\d+\.?\d*` at the start of `s` (which starts with a digit). */
  function NumberLength(s: string): (n: nat)
    requires s != [] && IsDigit(s[0])
    ensures 0 < n <= |s|
  {
    var whole := DigitRun(s);
    if whole < |s| && s[whole] == '.' then whole + 1 + DigitRun(s[whole + 1..]) else whole
  }

  /** `re.findall(r'(\d+\.?\d*|\+|\-|\*|\/|\(|\))', s)`: characters that start no token are skipped. */
  function Tokenize(s: string): (ts: seq<Token>)
    decreases |s|
  {
    if s == [] then []
    else if IsDigit(s[0]) then
      var n := NumberLength(s);
      [Number(s[..n], ParseDecimal(s[..n]).GetOr(0.0))] + Tokenize(s[n..])
    else
      match OperatorToken(s[0])
      case Some(t) => [t] + Tokenize(s[1..])
      case None => Tokenize(s[1..])
  }

  /** Every number token reads as a non-negative decimal: `float()` of it succeeds. */
  lemma {:induction false} NumberTokenParses(s: string)
    requires s != [] && IsDigit(s[0])
    ensures ParseDecimal(s[..NumberLength(s)]).Some?
  {
    var n := NumberLength(s);
    var t := s[..n];
    var whole := DigitRun(s);
    assert DigitRun(t) == whole by {
      DigitRunPrefix(s, n, whole);
    }
    if whole < |s| && s[whole] == '.' {
      var rest := t[whole + 1..];
      assert rest == s[whole + 1..][..DigitRun(s[whole + 1..])];
      DigitRunPrefix(s[whole + 1..], DigitRun(s[whole + 1..]), DigitRun(s[whole + 1..]));
    }
  }

  /** The digit run of a prefix that covers the run is the same run. */
  lemma {:induction false} DigitRunPrefix(s: string, n: nat, k: nat)
    requires k == DigitRun(s) && k <= n <= |s|
    requires n > k ==> s[k] == '.' || !IsDigit(s[k])
    ensures DigitRun(s[..n]) == k
    decreases k
  {
    if k > 0 {
      assert s[..n][1..] == s[1..][..n - 1];
      DigitRunPrefix(s[1..], n - 1, k - 1);
    } else if n > 0 {
      assert !IsDigit(s[..n][0]);
    }
  }

  // ---------------------------------------------------------------------------
  // The parser as functions over the token list

  /** What a parsing step yields: its value or the exception it raised, and the tokens
      still in the list afterwards. */
  datatype Step = Step(value: Result<real, PyError>, rest: seq<Token>)

  predicate IsAdditive(ts: seq<Token>) { ts != [] && (ts[0] == Plus || ts[0] == Minus) }
  predicate IsMultiplicative(ts: seq<Token>) { ts != [] && (ts[0] == Times || ts[0] == Slash) }

  /** `parse_expression` (which is `parse_addition`). */
  function Expr(ts: seq<Token>): (r: Step)
    ensures |r.rest| <= |ts|
    decreases |ts|, 4
  {
    var left := Term(ts);
    match left.value
    case Err(_) => left
    case Ok(x) => AddLoop(x, left.rest)
  }

  /** The loop of `parse_addition`, with the value so far in `acc`. */
  function AddLoop(acc: real, ts: seq<Token>): (r: Step)
    ensures |r.rest| <= |ts|
    decreases |ts|, 3
  {
    if !IsAdditive(ts) then Step(Ok(acc), ts)
    else
      var right := Term(ts[1..]);
      match right.value
      case Err(_) => right
      case Ok(y) => AddLoop(if ts[0] == Plus then acc + y else acc - y, right.rest)
  }

  /** Multiplication of two floats. */
  function Product(a: real, b: real): real { a * b }

  /** `parse_multiplication`. */
  function Term(ts: seq<Token>): (r: Step)
    ensures |r.rest| <= |ts|
    decreases |ts|, 2
  {
    var left := Factor(ts);
    match left.value
    case Err(_) => left
    case Ok(x) => MulLoop(x, left.rest)
  }

  /** The loop of `parse_multiplication`; a zero divisor raises `ValueError`. */
  function MulLoop(acc: real, ts: seq<Token>): (r: Step)
    ensures |r.rest| <= |ts|
    decreases |ts|, 1
  {
    if !IsMultiplicative(ts) then Step(Ok(acc), ts)
    else
      var right := Factor(ts[1..]);
      match right.value
      case Err(_) => right
      case Ok(y) =>
        if ts[0] == Times then MulLoop(Product(acc, y), right.rest)
        else if y == 0.0 then Step(Err(ValueError("Division by zero")), right.rest)
        else MulLoop(acc / y, right.rest)
  }

  /** `parse_number`: a parenthesised expression (the `)` is optional) or `float()` of
      the next token; an empty list raises `IndexError`. */
  function Factor(ts: seq<Token>): (r: Step)
    ensures |r.rest| < |ts| || (ts == [] && r == Step(Err(IndexError), []))
    decreases |ts|, 0
  {
    if ts == [] then Step(Err(IndexError), [])
    else if ts[0] == LParen then
      var inner := Expr(ts[1..]);
      match inner.value
      case Err(_) => inner
      case Ok(x) =>
        if inner.rest != [] && inner.rest[0] == RParen then Step(Ok(x), inner.rest[1..]) else Step(Ok(x), inner.rest)
    else if ts[0].Number? then Step(Ok(ts[0].value), ts[1..])
    else Step(Err(ValueError("could not convert string to float: '" + ts[0].Text() + "'")), ts[1..])
  }

  // ---------------------------------------------------------------------------
  // The result

  /** The outcome of `calculate_expression`: a whole number (printed without a fractional
      part), another number (printed with `str(float)`), or the error text. */
  datatype Calc = Whole(n: int) | Fraction(x: real) | Failed(message: string)

  function ErrorText(e: PyError): string {
    "Error in calculation: " + e.Str()
  }

  /** Tokens of the cleaned text: strip, drop other characters, commas to points. */
  function TokensOf(expression: string): seq<Token> {
    Tokenize(ReplaceChar(Clean(Strip(expression)), ',', '.'))
  }

  function Outcome(v: Result<real, PyError>): (r: Calc)
    ensures v.Ok? && v.value == v.value.Floor as real ==> r == Whole(v.value.Floor)
    ensures v.Ok? && v.value != v.value.Floor as real ==> r == Fraction(v.value)
    ensures v.Err? ==> r == Failed(ErrorText(v.error))
  {
    match v
    case Ok(x) => if x == x.Floor as real then Whole(x.Floor) else Fraction(x)
    case Err(e) => Failed(ErrorText(e))
  }

  /** `calculate_expression` as a function of its input. */
  function Calculate(expression: string): Calc {
    Outcome(Expr(TokensOf(expression)).value)
  }

  /** The text of a result; the digits of a fractional result are not modelled. */
  function WholeText(n: int): string {
    if n < 0 then "-" + NatToString(-n) else NatToString(n)
  }

  // ---------------------------------------------------------------------------
  // What the parser computes

  /** Arithmetic expressions over numbers, with their value in floating point reals:
      dividing by zero raises as the parser does, and the left operand is evaluated first. */
  datatype Expression =
    | Lit(x: real)
    | Add(l: Expression, r: Expression)
    | Sub(l: Expression, r: Expression)
    | Mul(l: Expression, r: Expression)
    | Div(l: Expression, r: Expression)

  function Eval(e: Expression): Result<real, PyError> {
    match e
    case Lit(x) => Ok(x)
    case Add(l, r) => Combine(Plus, Eval(l), Eval(r))
    case Sub(l, r) => Combine(Minus, Eval(l), Eval(r))
    case Mul(l, r) => Combine(Times, Eval(l), Eval(r))
    case Div(l, r) => Combine(Slash, Eval(l), Eval(r))
  }

  function Combine(op: Token, a: Result<real, PyError>, b: Result<real, PyError>): Result<real, PyError> {
    if a.Err? then a
    else if b.Err? then b
    else if op == Plus then Ok(a.value + b.value)
    else if op == Minus then Ok(a.value - b.value)
    else if op == Times then Ok(Product(a.value, b.value))
    else if b.value == 0.0 then Err(ValueError("Division by zero"))
    else Ok(a.value / b.value)
  }

  /** The fully parenthesised token form of an expression. */
  function Print(e: Expression): seq<Token> {
    match e
    case Lit(x) => [Number("", x)]
    case Add(l, r) => [LParen] + Print(l) + [Plus] + Print(r) + [RParen]
    case Sub(l, r) => [LParen] + Print(l) + [Minus] + Print(r) + [RParen]
    case Mul(l, r) => [LParen] + Print(l) + [Times] + Print(r) + [RParen]
    case Div(l, r) => [LParen] + Print(l) + [Slash] + Print(r) + [RParen]
  }

  /** `parse_number` reads one printed expression off the front of the list, whatever follows it. */
  lemma {:induction false} FactorPrint(e: Expression, rest: seq<Token>)
    ensures Factor(Print(e) + rest).value == Eval(e)
    ensures Eval(e).Ok? ==> Factor(Print(e) + rest).rest == rest
    decreases e, 2
  {
    match e
    case Lit(x) =>
      assert (Print(e) + rest)[1..] == rest;
    case Add(l, r) => BinaryPrint(e, Plus, l, r, rest);
    case Sub(l, r) => BinaryPrint(e, Minus, l, r, rest);
    case Mul(l, r) => BinaryPrint(e, Times, l, r, rest);
    case Div(l, r) => BinaryPrint(e, Slash, l, r, rest);
  }

  lemma TermOfFactor(ts: seq<Token>)
    requires Factor(ts).value.Err? || !IsMultiplicative(Factor(ts).rest)
    ensures Term(ts) == Factor(ts)
  {
  }

  lemma ExprOfTerm(ts: seq<Token>)
    requires Term(ts).value.Err? || !IsAdditive(Term(ts).rest)
    ensures Expr(ts) == Term(ts)
  {
  }

  /** A parenthesised group is what `parse_expression` makes of its inside, less the `)`. */
  lemma GroupOf(inner: seq<Token>, rest: seq<Token>, v: Result<real, PyError>)
    requires Expr(inner).value == v
    requires v.Ok? ==> Expr(inner).rest == [RParen] + rest
    ensures Factor([LParen] + inner).value == v
    ensures v.Ok? ==> Factor([LParen] + inner).rest == rest
  {
    assert ([LParen] + inner)[1..] == inner;
    assert ([RParen] + rest)[1..] == rest;
  }

  lemma BinaryPrint(e: Expression, op: Token, l: Expression, r: Expression, rest: seq<Token>)
    requires l < e && r < e
    requires op == Plus || op == Minus || op == Times || op == Slash
    ensures var ts := [LParen] + Print(l) + [op] + Print(r) + [RParen] + rest;
            Factor(ts).value == Combine(op, Eval(l), Eval(r)) &&
            (Combine(op, Eval(l), Eval(r)).Ok? ==> Factor(ts).rest == rest)
    decreases e, 1
  {
    var inL := Print(l) + ([op] + (Print(r) + ([RParen] + rest)));
    assert [LParen] + Print(l) + [op] + Print(r) + [RParen] + rest == [LParen] + inL;
    if op == Plus || op == Minus {
      AdditivePrint(e, op, l, r, rest);
    } else {
      MultiplicativePrint(e, op, l, r, rest);
    }
    GroupOf(inL, rest, Combine(op, Eval(l), Eval(r)));
  }

  lemma {:induction false} AdditivePrint(e: Expression, op: Token, l: Expression, r: Expression, rest: seq<Token>)
    requires l < e && r < e
    requires op == Plus || op == Minus
    ensures var inner := Expr(Print(l) + ([op] + (Print(r) + ([RParen] + rest))));
            inner.value == Combine(op, Eval(l), Eval(r)) &&
            (inner.value.Ok? ==> inner.rest == [RParen] + rest)
    decreases e, 0
  {
    var afterR := [RParen] + rest;
    var inR := Print(r) + afterR;
    var afterL := [op] + inR;
    var inL := Print(l) + afterL;
    FactorPrint(l, afterL);
    FactorPrint(r, afterR);
    TermOfFactor(inL);
    TermOfFactor(inR);
    if Eval(l).Err? {
      ExprOfTerm(inL);
    } else {
      AddStep(Eval(l).value, op, inR, afterR, Eval(r));
    }
  }

  /** One round of `parse_addition` over a right operand followed by `)`. */
  lemma AddStep(x: real, op: Token, inR: seq<Token>, afterR: seq<Token>, v: Result<real, PyError>)
    requires op == Plus || op == Minus
    requires Term(inR).value == v && (v.Ok? ==> Term(inR).rest == afterR)
    requires afterR != [] && afterR[0] == RParen
    ensures AddLoop(x, [op] + inR).value == Combine(op, Ok(x), v)
    ensures Combine(op, Ok(x), v).Ok? ==> AddLoop(x, [op] + inR).rest == afterR
  {
    assert ([op] + inR)[1..] == inR;
  }

  lemma {:induction false} MultiplicativePrint(e: Expression, op: Token, l: Expression, r: Expression, rest: seq<Token>)
    requires l < e && r < e
    requires op == Times || op == Slash
    ensures var inner := Expr(Print(l) + ([op] + (Print(r) + ([RParen] + rest))));
            inner.value == Combine(op, Eval(l), Eval(r)) &&
            (inner.value.Ok? ==> inner.rest == [RParen] + rest)
    decreases e, 0
  {
    var afterR := [RParen] + rest;
    var inR := Print(r) + afterR;
    var afterL := [op] + inR;
    var inL := Print(l) + afterL;
    FactorPrint(l, afterL);
    FactorPrint(r, afterR);
    if Eval(l).Err? {
      TermOfFactor(inL);
    } else {
      MulStep(Eval(l).value, op, inR, afterR, Eval(r));
    }
    ExprOfTerm(inL);
  }

  /** One round of `parse_multiplication` over a right operand followed by `)`. */
  lemma MulStep(x: real, op: Token, inR: seq<Token>, afterR: seq<Token>, v: Result<real, PyError>)
    requires op == Times || op == Slash
    requires Factor(inR).value == v && (v.Ok? ==> Factor(inR).rest == afterR)
    requires afterR != [] && afterR[0] == RParen
    ensures MulLoop(x, [op] + inR).value == Combine(op, Ok(x), v)
    ensures Combine(op, Ok(x), v).Ok? ==> MulLoop(x, [op] + inR).rest == afterR
  {
    assert ([op] + inR)[1..] == inR;
  }

  /** The parser evaluates every printed expression to its value, and consumes it all. */
  lemma ParsePrinted(e: Expression)
    ensures Expr(Print(e)).value == Eval(e)
    ensures Eval(e).Ok? ==> Expr(Print(e)).rest == []
  {
    FactorPrint(e, []);
    assert Print(e) + [] == Print(e);
    TermOfFactor(Print(e));
    ExprOfTerm(Print(e));
  }

  /** `*` binds tighter than `+`: `a + b * c` is `a + (b * c)`. */
  lemma MultiplicationFirst(a: real, b: real, c: real)
    ensures Expr([Number("a", a), Plus, Number("b", b), Times, Number("c", c)]) == Step(Ok(a + Product(b, c)), [])
  {
    var ts := [Number("a", a), Plus, Number("b", b), Times, Number("c", c)];
    var t1 := [Plus, Number("b", b), Times, Number("c", c)];
    var t2 := [Number("b", b), Times, Number("c", c)];
    var t3 := [Times, Number("c", c)];
    assert ts[1..] == t1 && t1[1..] == t2 && t2[1..] == t3 && t3[1..] == [Number("c", c)];
    assert Term(ts) == Step(Ok(a), t1);
    assert MulLoop(b, t3) == MulLoop(Product(b, c), []);
    assert Term(t2) == Step(Ok(Product(b, c)), []);
    assert AddLoop(a, t1) == AddLoop(a + Product(b, c), []);
  }

  /** Subtraction associates to the left: `a - b - c` is `(a - b) - c`. */
  lemma SubtractionLeftAssociative(a: real, b: real, c: real)
    ensures Expr([Number("a", a), Minus, Number("b", b), Minus, Number("c", c)]) == Step(Ok((a - b) - c), [])
  {
    var ts := [Number("a", a), Minus, Number("b", b), Minus, Number("c", c)];
    var t1 := [Minus, Number("b", b), Minus, Number("c", c)];
    var t2 := [Number("b", b), Minus, Number("c", c)];
    var t3 := [Minus, Number("c", c)];
    assert ts[1..] == t1 && t1[1..] == t2 && t2[1..] == t3 && t3[1..] == [Number("c", c)];
    assert Term(ts) == Step(Ok(a), t1);
    assert Term(t2) == Step(Ok(b), t3);
    assert Term([Number("c", c)]) == Step(Ok(c), []);
    assert AddLoop(a, t1) == AddLoop(a - b, t3);
    assert AddLoop(a - b, t3) == AddLoop((a - b) - c, []);
  }

  /** Division associates to the left: `a / b / c` is `(a / b) / c`. */
  lemma DivisionLeftAssociative(a: real, b: real, c: real)
    requires b != 0.0 && c != 0.0
    ensures Expr([Number("a", a), Slash, Number("b", b), Slash, Number("c", c)]) == Step(Ok((a / b) / c), [])
  {
    var ts := [Number("a", a), Slash, Number("b", b), Slash, Number("c", c)];
    var t1 := [Slash, Number("b", b), Slash, Number("c", c)];
    var t2 := [Number("b", b), Slash, Number("c", c)];
    var t3 := [Slash, Number("c", c)];
    assert ts[1..] == t1 && t1[1..] == t2 && t2[1..] == t3 && t3[1..] == [Number("c", c)];
    assert Factor(ts) == Step(Ok(a), t1);
    assert MulLoop(a, t1) == MulLoop(a / b, t3);
    assert MulLoop(a / b, t3) == MulLoop((a / b) / c, []);
    assert Term(ts) == Step(Ok((a / b) / c), []);
  }

  /** A missing closing `)` is tolerated: `(e` evaluates as `e`. */
  lemma MissingParenthesis(e: Expression)
    ensures Expr([LParen] + Print(e)).value == Eval(e)
  {
    ParsePrinted(e);
    assert ([LParen] + Print(e))[1..] == Print(e);
    TermOfFactor([LParen] + Print(e));
    ExprOfTerm([LParen] + Print(e));
  }

  /** Tokens left over after a complete expression are ignored: `2 3` evaluates as `2`. */
  lemma LeftoverIgnored(e: Expression, rest: seq<Token>)
    requires rest != [] && (rest[0].Number? || rest[0] == LParen || rest[0] == RParen)
    ensures Expr(Print(e) + rest).value == Eval(e)
  {
    FactorPrint(e, rest);
    TermOfFactor(Print(e) + rest);
    ExprOfTerm(Print(e) + rest);
  }

  /** Dividing by zero ends the calculation with the parser's own message. */
  lemma DivisionByZero(l: Expression, r: Expression)
    requires Eval(l).Ok? && Eval(r) == Ok(0.0)
    ensures Outcome(Expr(Print(Div(l, r))).value) == Failed(ErrorText(ValueError("Division by zero")))
  {
    ParsedFailure(Div(l, r));
  }

  /** A printed expression whose evaluation raises reports that error. */
  lemma ParsedFailure(d: Expression)
    requires Eval(d).Err?
    ensures Outcome(Expr(Print(d)).value) == Failed(ErrorText(Eval(d).error))
  {
    ParsePrinted(d);
  }

  /** A text with nothing to calculate makes the parser pop from an empty list. */
  lemma NothingToCalculate(expression: string)
    requires TokensOf(expression) == []
    ensures Calculate(expression) == Failed("Error in calculation: list index out of range")
  {
    assert Factor([]) == Step(Err(IndexError), []);
    assert Term([]).value == Err(IndexError);
    assert Expr([]).value == Err(IndexError);
    assert ErrorText(IndexError) == "Error in calculation: list index out of range";
  }

  /** The parser has no unary operators: an expression that starts with an operator other
      than `(` fails on `float()` of that operator. */
  lemma LeadingOperator(ts: seq<Token>)
    requires ts != [] && !ts[0].Number? && ts[0] != LParen
    ensures Expr(ts).value == Err(ValueError("could not convert string to float: '" + ts[0].Text() + "'"))
  {
    TermOfFactor(ts);
    ExprOfTerm(ts);
  }

  // ---------------------------------------------------------------------------
  // The parser as the source runs it: methods popping a shared token list

  class TokenStream {
    var tokens: seq<Token>

    constructor(ts: seq<Token>)
      ensures tokens == ts
    {
      tokens := ts;
    }

    method ParseExpression() returns (r: Result<real, PyError>)
      modifies this
      decreases |tokens|, 4
      ensures Step(r, tokens) == Expr(old(tokens))
    {
      ghost var ts := tokens;
      r := ParseMultiplication();
      if r.Err? {
        return;
      }
      var left := r.value;
      while tokens != [] && (tokens[0] == Plus || tokens[0] == Minus)
        invariant |tokens| <= |ts|
        invariant AddLoop(left, tokens) == Expr(ts)
        decreases |tokens|
      {
        var op := tokens[0];
        tokens := tokens[1..];
        var right := ParseMultiplication();
        if right.Err? {
          return right;
        }
        if op == Plus {
          left := left + right.value;
        } else {
          left := left - right.value;
        }
      }
      r := Ok(left);
    }

    method ParseMultiplication() returns (r: Result<real, PyError>)
      modifies this
      decreases |tokens|, 2
      ensures Step(r, tokens) == Term(old(tokens))
    {
      ghost var ts := tokens;
      r := ParseNumber();
      if r.Err? {
        return;
      }
      var left := r.value;
      while tokens != [] && (tokens[0] == Times || tokens[0] == Slash)
        invariant |tokens| <= |ts|
        invariant MulLoop(left, tokens) == Term(ts)
        decreases |tokens|
      {
        var op := tokens[0];
        tokens := tokens[1..];
        var right := ParseNumber();
        if right.Err? {
          return right;
        }
        if op == Times {
          left := Product(left, right.value);
        } else {
          if right.value == 0.0 {
            return Err(ValueError("Division by zero"));
          }
          left := left / right.value;
        }
      }
      r := Ok(left);
    }

    method ParseNumber() returns (r: Result<real, PyError>)
      modifies this
      decreases |tokens|, 0
      ensures Step(r, tokens) == Factor(old(tokens))
    {
      if tokens == [] {
        return Err(IndexError);
      }
      if tokens[0] == LParen {
        tokens := tokens[1..];
        r := ParseExpression();
        if r.Ok? && tokens != [] && tokens[0] == RParen {
          tokens := tokens[1..];
        }
      } else {
        var t := tokens[0];
        tokens := tokens[1..];
        if t.Number? {
          r := Ok(t.value);
        } else {
          r := Err(ValueError("could not convert string to float: '" + t.Text() + "'"));
        }
      }
    }
  }

  /** `calculate_expression`. */
  method CalculateExpression(expression: string) returns (c: Calc)
    ensures c == Calculate(expression)
  {
    var stream := new TokenStream(TokensOf(expression));
    var v := stream.ParseExpression();
    c := Outcome(v);
  }
}
