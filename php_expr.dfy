/**
 * Expressions over the five-character alphabet `9 ( ) . ^`: their parse
 * trees, the text each tree stands for, and what PHP evaluates it to.
 *
 * A tree is rendered to text by `Render`; `WellFormed` trees are those whose
 * text PHP parses back into the same tree (`.` binds tighter than `^`, both
 * associate to the left, and a digit never touches a `.`, which PHP's lexer
 * would read as part of a float literal).
 */
module PhpExpr {
  import opened PhpValues

  datatype Expr =
    | Nines(count: nat)            // an integer literal of `count` nines
    | Paren(inner: Expr)           // ( inner )
    | Concat(left: Expr, right: Expr)  // left . right
    | Xor(left: Expr, right: Expr)     // left ^ right
    | Call(callee: Expr, arg: Expr)    // callee ( arg )

  /** The characters every encoder output is made of. */
  const ALPHABET: set<char> := {'(', ')', '.', '^', '9'}

  predicate InAlphabet(s: string) {
    forall i :: 0 <= i < |s| ==> s[i] in ALPHABET
  }

  lemma AlphabetConcat(a: string, b: string)
    requires InAlphabet(a) && InAlphabet(b)
    ensures InAlphabet(a + b)
  {
  }

  /** The source text of an expression. */
  function Render(e: Expr): string {
    match e
    case Nines(k) => seq(k, _ => '9')
    case Paren(x) => "(" + Render(x) + ")"
    case Concat(a, b) => Render(a) + "." + Render(b)
    case Xor(a, b) => Render(a) + "^" + Render(b)
    case Call(f, x) => Render(f) + "(" + Render(x) + ")"
  }

  /** Every rendered expression uses only the five characters. */
  lemma {:induction false} RenderInAlphabet(e: Expr)
    ensures InAlphabet(Render(e))
  {
    match e
    case Nines(k) =>
    case Paren(x) =>
      RenderInAlphabet(x);
    case Concat(a, b) =>
      RenderInAlphabet(a);
      RenderInAlphabet(b);
    case Xor(a, b) =>
      RenderInAlphabet(a);
      RenderInAlphabet(b);
    case Call(f, x) =>
      RenderInAlphabet(f);
      RenderInAlphabet(x);
  }

  // ---------------------------------------------------------------------------
  // Precedence: the trees whose text PHP reads back as the same tree

  /** An operand of `.`: a parenthesised expression or a call on one. */
  predicate Primary(e: Expr)
    decreases e, 0
  {
    match e
    case Paren(x) => WellFormed(x)
    case Call(f, x) => f.Paren? && WellFormed(f.inner) && WellFormed(x)
    case _ => false
  }

  /** A chain `p . p . … . p` of primaries, grouped to the left. */
  predicate ConcatLevel(e: Expr)
    decreases e, 1
  {
    Primary(e) || (e.Concat? && ConcatLevel(e.left) && Primary(e.right))
  }

  /** An operand of `^`: a concatenation chain or a literal. */
  predicate XorOperand(e: Expr)
    decreases e, 2
  {
    (e.Nines? && e.count >= 1) || ConcatLevel(e)
  }

  /** A chain `o ^ o ^ … ^ o` of operands, grouped to the left. */
  predicate WellFormed(e: Expr)
    decreases e, 3
  {
    XorOperand(e) || (e.Xor? && WellFormed(e.left) && XorOperand(e.right))
  }

  // ---------------------------------------------------------------------------
  // Evaluation

  /** The value of a literal made of k nines. */
  function NinesValue(k: nat): nat {
    if k == 0 then 0 else 10 * NinesValue(k - 1) + 9
  }

  /**
   * The literal of k nines: an integer while it fits PHP_INT_MAX; past that
   * PHP reads it as a float, which becomes INF once it exceeds the largest
   * double (from 309 digits on). Finite floats are outside this model.
   */
  function LiteralValue(k: nat): Option<Value> {
    if k == 0 then None
    else if NinesValue(k) <= PHP_INT_MAX then Some(Int(NinesValue(k)))
    else if k >= 309 then Some(Inf)
    else None
  }

  /**
   * What PHP evaluates an expression to, or None where the expression leaves
   * the part of PHP modelled here. The only call modelled is `chr` on an
   * integer, named by a string in any letter case.
   */
  function Eval(e: Expr): Option<Value> {
    match e
    case Nines(k) => LiteralValue(k)
    case Paren(x) => Eval(x)
    case Concat(a, b) =>
      (match (Eval(a), Eval(b))
       case (Some(x), Some(y)) => Some(Str(ToStr(x) + ToStr(y)))
       case _ => None)
    case Xor(a, b) =>
      (match (Eval(a), Eval(b))
       case (Some(x), Some(y)) => XorValues(x, y)
       case _ => None)
    case Call(f, x) =>
      (match (Eval(f), Eval(x))
       case (Some(Str(name)), Some(Int(n))) => if NamesChr(name) then Some(Str(Chr(n))) else None
       case _ => None)
  }

  /** Eighteen nines still fit PHP_INT_MAX; nineteen do not. */
  lemma NinesAtIntMax()
    ensures NinesValue(18) <= PHP_INT_MAX < NinesValue(19)
  {
    assert NinesValue(1) == 9;
    assert NinesValue(2) == 99;
    assert NinesValue(3) == 999;
    assert NinesValue(4) == 9999;
    assert NinesValue(5) == 99999;
    assert NinesValue(6) == 999999;
    assert NinesValue(7) == 9999999;
    assert NinesValue(8) == 99999999;
    assert NinesValue(9) == 999999999;
    assert NinesValue(10) == 9999999999;
    assert NinesValue(11) == 99999999999;
    assert NinesValue(12) == 999999999999;
    assert NinesValue(13) == 9999999999999;
    assert NinesValue(14) == 99999999999999;
    assert NinesValue(15) == 999999999999999;
    assert NinesValue(16) == 9999999999999999;
    assert NinesValue(17) == 99999999999999999;
    assert NinesValue(18) == 999999999999999999;
    assert NinesValue(19) == 9999999999999999999;
  }

  lemma {:induction false} NinesValueMonotone(j: nat, k: nat)
    requires j <= k
    ensures NinesValue(j) <= NinesValue(k)
    decreases k - j
  {
    if j < k {
      NinesValueMonotone(j, k - 1);
    }
  }

  /**
   * A literal of nines is an integer exactly when it has 1 to 18 digits,
   * and INF from 309 digits on.
   */
  lemma LiteralKinds(k: nat)
    ensures LiteralValue(k).Some? && LiteralValue(k).value.Int? <==> 1 <= k <= 18
    ensures 1 <= k <= 18 ==> LiteralValue(k) == Some(Int(NinesValue(k)))
    ensures k >= 309 ==> LiteralValue(k) == Some(Inf)
  {
    NinesAtIntMax();
    if k <= 18 {
      NinesValueMonotone(k, 18);
    } else {
      NinesValueMonotone(19, k);
    }
  }

  /** Every integer an expression evaluates to is a PHP integer. */
  lemma {:induction false} EvalIntInRange(e: Expr)
    ensures Eval(e).Some? && Eval(e).value.Int? ==> Eval(e).value.n <= PHP_INT_MAX
  {
    match e
    case Nines(k) =>
    case Paren(x) =>
      EvalIntInRange(x);
    case Concat(a, b) =>
    case Xor(a, b) =>
      EvalIntInRange(a);
      EvalIntInRange(b);
      if Eval(a).Some? && Eval(b).Some? {
        var x, y := Eval(a).value, Eval(b).value;
        if !(x.Str? && y.Str?) && ToInt(x).Some? && ToInt(y).Some? {
          PhpIntXor(ToInt(x).value, ToInt(y).value);
        }
      }
    case Call(f, x) =>
  }
}
