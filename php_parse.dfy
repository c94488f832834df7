/**
 * Reading encoder text back as PHP reads it: `^` binds looser than `.`,
 * both group to the left, a parenthesised expression may be called once
 * with a parenthesised argument, and a run of nines is one integer literal.
 *
 * The main result is that parsing the text of a well-formed tree gives back
 * that tree, so what is proved about a tree's value holds of its text.
 */
module PhpParse {
  import opened PhpValues
  import opened PhpExpr

  /** A parsed expression and the text that follows it. */
  type Parsed = Option<(Expr, string)>

  /** True when `s` does not start with any of `cs`. */
  predicate StopsBefore(s: string, cs: set<char>) {
    s == [] || s[0] !in cs
  }

  /** The number of nines `s` starts with. */
  function NinesRun(s: string): (k: nat)
    ensures k <= |s|
  {
    if s != [] && s[0] == '9' then 1 + NinesRun(s[1..]) else 0
  }

  /** `o ^ o ^ … ^ o`. */
  function ParseXor(s: string): (r: Parsed)
    ensures r.Some? ==> |r.value.1| < |s|
    decreases |s|, 3
  {
    match ParseOperand(s)
    case None => None
    case Some((e, rest)) => ParseXorTail(e, rest)
  }

  /** Further `^ o` after the operands read so far, folded to the left. */
  function ParseXorTail(acc: Expr, s: string): (r: Parsed)
    ensures r.Some? ==> |r.value.1| <= |s|
    decreases |s|, 3
  {
    if s != [] && s[0] == '^' then
      match ParseOperand(s[1..])
      case None => None
      case Some((e, rest)) => ParseXorTail(Xor(acc, e), rest)
    else Some((acc, s))
  }

  /** An operand of `^`: a literal of nines or a chain of primaries joined by `.`. */
  function ParseOperand(s: string): (r: Parsed)
    ensures r.Some? ==> |r.value.1| < |s|
    decreases |s|, 2
  {
    var k := NinesRun(s);
    if k > 0 then Some((Nines(k), s[k..])) else ParseConcat(s)
  }

  /** `p . p . … . p`. */
  function ParseConcat(s: string): (r: Parsed)
    ensures r.Some? ==> |r.value.1| < |s|
    decreases |s|, 1
  {
    match ParsePrimary(s)
    case None => None
    case Some((e, rest)) => ParseConcatTail(e, rest)
  }

  /** Further `. p` after the primaries read so far, folded to the left. */
  function ParseConcatTail(acc: Expr, s: string): (r: Parsed)
    ensures r.Some? ==> |r.value.1| <= |s|
    decreases |s|, 1
  {
    if s != [] && s[0] == '.' then
      match ParsePrimary(s[1..])
      case None => None
      case Some((e, rest)) => ParseConcatTail(Concat(acc, e), rest)
    else Some((acc, s))
  }

  /** `( x )`, or `( f )( x )`: a parenthesised expression, called at most once. */
  function ParsePrimary(s: string): (r: Parsed)
    ensures r.Some? ==> |r.value.1| < |s|
    decreases |s|, 0
  {
    if s == [] || s[0] != '(' then None
    else
      match ParseXor(s[1..])
      case None => None
      case Some((x, rest)) => CloseGroup(x, rest)
  }

  /** After `( x`: the closing parenthesis, then a call's argument if one follows. */
  function CloseGroup(x: Expr, s: string): (r: Parsed)
    ensures r.Some? ==> |r.value.1| < |s|
    decreases |s|, 0
  {
    if s == [] || s[0] != ')' then None
    else
      var after := s[1..];
      if after != [] && after[0] == '(' then
        match ParseXor(after[1..])
        case None => None
        case Some((arg, rest)) =>
          if rest == [] || rest[0] != ')' then None else Some((Call(Paren(x), arg), rest[1..]))
      else Some((Paren(x), after))
  }

  /** The whole text as one expression, or None when it is not one. */
  function Parse(s: string): Option<Expr> {
    match ParseXor(s)
    case Some((e, rest)) => if rest == [] then Some(e) else None
    case None => None
  }

  /** What PHP computes from a text: its value when it parses and evaluates. */
  function EvalText(s: string): Option<Value> {
    match Parse(s)
    case Some(e) => Eval(e)
    case None => None
  }

  // ---------------------------------------------------------------------------
  // Parsing the text of a well-formed tree gives back the tree

  /** What may follow an operand of `^` without being read as part of it. */
  const OPERAND_STOPS: set<char> := {'9', '.', '('}

  lemma {:induction false} NinesRunOf(k: nat, rest: string)
    requires StopsBefore(rest, {'9'})
    ensures NinesRun(Render(Nines(k)) + rest) == k
    ensures (Render(Nines(k)) + rest)[k..] == rest
    decreases k
  {
    if k > 0 {
      NinesRunOf(k - 1, rest);
      assert (Render(Nines(k)) + rest)[1..] == Render(Nines(k - 1)) + rest;
    }
  }

  /** The text of a primary, or of a chain of them, opens with a parenthesis. */
  lemma {:induction false} ConcatLevelOpens(e: Expr)
    requires ConcatLevel(e)
    ensures |Render(e)| > 0 && Render(e)[0] == '('
    decreases e
  {
    if !Primary(e) {
      ConcatLevelOpens(e.left);
    }
  }

  /** A closing parenthesis ends an expression: the tail reader stops there. */
  lemma ClosedTail(e: Expr, rest: string)
    ensures StopsBefore(")" + rest, OPERAND_STOPS)
    ensures ParseXorTail(e, ")" + rest) == Some((e, ")" + rest))
  {
  }

  /** The text of `( x )` followed by `rest`, cut after its opening parenthesis. */
  lemma ParenText(x: string, rest: string)
    ensures ("(" + x + ")" + rest)[0] == '('
    ensures ("(" + x + ")" + rest)[1..] == x + (")" + rest)
  {
  }

  /** Inside a parenthesis, a well-formed expression is read up to its closing parenthesis. */
  lemma GroupOf(x: Expr, tail: string)
    requires WellFormed(x)
    ensures ("(" + Render(x) + ")" + tail)[0] == '('
    ensures ParseXor(("(" + Render(x) + ")" + tail)[1..]) == Some((x, ")" + tail))
    decreases x, 5
  {
    ClosedTail(x, tail);
    ParseXorOf(x, ")" + tail);
    ParenText(Render(x), tail);
  }

  lemma PrimaryStep(s: string, x: Expr, t: string)
    requires |s| > 0 && s[0] == '(' && ParseXor(s[1..]) == Some((x, t))
    ensures ParsePrimary(s) == CloseGroup(x, t)
  {
  }

  lemma CloseGroupParen(x: Expr, rest: string)
    requires StopsBefore(rest, {'('})
    ensures CloseGroup(x, ")" + rest) == Some((Paren(x), rest))
  {
    assert (")" + rest)[1..] == rest;
  }

  lemma CloseGroupCall(y: Expr, mid: string, x: Expr, rest: string)
    requires |mid| > 0 && mid[0] == '(' && ParseXor(mid[1..]) == Some((x, ")" + rest))
    ensures CloseGroup(y, ")" + mid) == Some((Call(Paren(y), x), rest))
  {
    assert (")" + mid)[1..] == mid;
    assert (")" + rest)[1..] == rest;
  }

  lemma CallTextSplit(y: string, x: string, rest: string)
    ensures "(" + y + ")" + "(" + x + ")" + rest == "(" + y + ")" + ("(" + x + ")" + rest)
  {
  }

  lemma ParseParenOf(x: Expr, rest: string)
    requires WellFormed(x) && StopsBefore(rest, {'('})
    ensures ParsePrimary(Render(Paren(x)) + rest) == Some((Paren(x), rest))
    decreases Paren(x), 0
  {
    GroupOf(x, rest);
    PrimaryStep("(" + Render(x) + ")" + rest, x, ")" + rest);
    CloseGroupParen(x, rest);
  }

  lemma ParseCallOf(y: Expr, x: Expr, rest: string)
    requires WellFormed(y) && WellFormed(x)
    ensures ParsePrimary(Render(Call(Paren(y), x)) + rest) == Some((Call(Paren(y), x), rest))
    decreases Call(Paren(y), x), 0
  {
    var mid := "(" + Render(x) + ")" + rest;
    var s := "(" + Render(y) + ")" + mid;
    CallTextSplit(Render(y), Render(x), rest);
    assert Render(Call(Paren(y), x)) + rest == s;
    GroupOf(y, mid);
    GroupOf(x, rest);
    PrimaryStep(s, y, ")" + mid);
    CloseGroupCall(y, mid, x, rest);
  }

  lemma {:induction false} ParsePrimaryOf(e: Expr, rest: string)
    requires Primary(e) && StopsBefore(rest, {'('})
    ensures ParsePrimary(Render(e) + rest) == Some((e, rest))
    decreases e, 1
  {
    match e
    case Paren(x) =>
      ParseParenOf(x, rest);
    case Call(f, x) =>
      ParseCallOf(f.inner, x, rest);
  }

  /** The text of `a op b` followed by `rest`, split after `a`. */
  lemma OperatorText(a: string, op: char, b: string, rest: string)
    ensures a + [op] + b + rest == a + ([op] + b + rest)
    ensures ([op] + b + rest)[0] == op && ([op] + b + rest)[1..] == b + rest
  {
  }

  lemma ConcatTailStep(acc: Expr, s: string, e: Expr, rest: string)
    requires |s| > 0 && s[0] == '.' && ParsePrimary(s[1..]) == Some((e, rest))
    ensures ParseConcatTail(acc, s) == ParseConcatTail(Concat(acc, e), rest)
  {
  }

  lemma XorTailStep(acc: Expr, s: string, e: Expr, rest: string)
    requires |s| > 0 && s[0] == '^' && ParseOperand(s[1..]) == Some((e, rest))
    ensures ParseXorTail(acc, s) == ParseXorTail(Xor(acc, e), rest)
  {
  }

  /** A chain of primaries is read up to where it ends; the tail reader takes over there. */
  lemma {:induction false} ParseConcatOf(e: Expr, rest: string)
    requires ConcatLevel(e) && StopsBefore(rest, {'('})
    ensures ParseConcat(Render(e) + rest) == ParseConcatTail(e, rest)
    decreases e, 2
  {
    if Primary(e) {
      ParsePrimaryOf(e, rest);
    } else {
      var a, b := e.left, e.right;
      OperatorText(Render(a), '.', Render(b), rest);
      ParseConcatOf(a, "." + Render(b) + rest);
      ParsePrimaryOf(b, rest);
      ConcatTailStep(a, "." + Render(b) + rest, b, rest);
    }
  }

  lemma {:induction false} ParseOperandOf(e: Expr, rest: string)
    requires XorOperand(e) && StopsBefore(rest, OPERAND_STOPS)
    ensures ParseOperand(Render(e) + rest) == Some((e, rest))
    decreases e, 3
  {
    if e.Nines? && e.count >= 1 {
      NinesRunOf(e.count, rest);
    } else {
      ConcatLevelOpens(e);
      ParseConcatOf(e, rest);
    }
  }

  /** A chain of operands is read up to where it ends; the tail reader takes over there. */
  lemma {:induction false} ParseXorOf(e: Expr, rest: string)
    requires WellFormed(e) && StopsBefore(rest, OPERAND_STOPS)
    ensures ParseXor(Render(e) + rest) == ParseXorTail(e, rest)
    decreases e, 4
  {
    if XorOperand(e) {
      ParseOperandOf(e, rest);
    } else {
      var l, r := e.left, e.right;
      OperatorText(Render(l), '^', Render(r), rest);
      ParseXorOf(l, "^" + Render(r) + rest);
      ParseOperandOf(r, rest);
      XorTailStep(l, "^" + Render(r) + rest, r, rest);
    }
  }

  /** PHP reads the text of a well-formed tree back as that tree. */
  lemma ParseRoundTrip(e: Expr)
    requires WellFormed(e)
    ensures Parse(Render(e)) == Some(e)
  {
    ParseXorOf(e, []);
    assert Render(e) + [] == Render(e);
  }
}
