/**
 * Each constant's tree renders to exactly the constant's text.
 */
module TableRender {
  import opened PhpExpr
  import opened PhpTable

  // ---------------------------------------------------------------------------
  // Each tree renders to its constant's text.
  // The Shape lemmas give the text of one tree pattern, grouped as the
  // original groups its concatenations; each constant is then one instance.

  lemma ShapeCat(a: Expr, b: Expr)
    ensures Render(Paren(Concat(a, b))) == "(" + Render(a) + "." + Render(b) + ")"
  {
  }

  lemma ShapeXor(a: Expr, b: Expr)
    ensures Render(Paren(Xor(a, b))) == "(" + Render(a) + "^" + Render(b) + ")"
  {
  }

  lemma Xor3Text(ra: string, rb: string, rc: string)
    ensures "(" + (ra + "^" + rb + "^" + rc) + ")" == "(" + ra + "^" + rb + "^" + rc + ")"
  {
  }

  lemma ShapeXor3(a: Expr, b: Expr, c: Expr)
    ensures Render(Paren(Xor(Xor(a, b), c))) == "(" + Render(a) + "^" + Render(b) + "^" + Render(c) + ")"
  {
    assert Render(Xor(a, b)) == Render(a) + "^" + Render(b);
    assert Render(Paren(Xor(Xor(a, b), c))) == "(" + (Render(a) + "^" + Render(b) + "^" + Render(c)) + ")";
    Xor3Text(Render(a), Render(b), Render(c));
  }

  lemma Cat3Text(ra: string, rb: string, rc: string)
    ensures "(" + (ra + "." + rb + "." + rc) + ")" == "(" + ra + "." + rb + "." + rc + ")"
  {
  }

  lemma ShapeCat3(a: Expr, b: Expr, c: Expr)
    ensures Render(Paren(Concat(Concat(a, b), c))) == "(" + Render(a) + "." + Render(b) + "." + Render(c) + ")"
  {
    assert Render(Concat(a, b)) == Render(a) + "." + Render(b);
    assert Render(Paren(Concat(Concat(a, b), c))) == "(" + (Render(a) + "." + Render(b) + "." + Render(c)) + ")";
    Cat3Text(Render(a), Render(b), Render(c));
  }

  /** The text of STR_80's pattern, regrouped as the table writes it. */
  lemma Str80Text(ra: string, rb: string, rc: string, rd: string, re: string)
    ensures "(" + (("(" + (ra + "." + rb) + ")") + "^" + ("(" + (rc + "." + rd) + ")") + "^" + re) + ")"
         == "((" + ra + "." + rb + ")^(" + rc + "." + rd + ")^" + re + ")"
  {
  }

  lemma ShapeStr80(a: Expr, b: Expr, c: Expr, d: Expr, e: Expr)
    ensures Render(Paren(Xor(Xor(Paren(Concat(a, b)), Paren(Concat(c, d))), e)))
         == "((" + Render(a) + "." + Render(b) + ")^(" + Render(c) + "." + Render(d) + ")^" + Render(e) + ")"
  {
    var x, y := Paren(Concat(a, b)), Paren(Concat(c, d));
    assert Render(x) == "(" + (Render(a) + "." + Render(b)) + ")";
    assert Render(y) == "(" + (Render(c) + "." + Render(d)) + ")";
    assert Render(Xor(x, y)) == Render(x) + "^" + Render(y);
    assert Render(Paren(Xor(Xor(x, y), e))) == "(" + (Render(x) + "^" + Render(y) + "^" + Render(e)) + ")";
    Str80Text(Render(a), Render(b), Render(c), Render(d), Render(e));
  }

  /** The text of INT_83's pattern, regrouped. */
  lemma Int83Text(ra: string)
    ensures "(" + "9" + "^" + ("(" + ra + "^" + ("(" + "(9)" + "." + ("(" + ra + ")") + ")") + ")") + ")"
         == "(9^(" + ra + "^((9).(" + ra + "))))"
  {
  }

  lemma ShapeInt83(a: Expr)
    ensures Render(Paren(Xor(NINE, Paren(Xor(a, Paren(Concat(Paren(NINE), Paren(a))))))))
         == "(9^(" + Render(a) + "^((9).(" + Render(a) + "))))"
  {
    var x := Paren(Concat(Paren(NINE), Paren(a)));
    assert Render(NINE) == "9";
    assert Render(Paren(NINE)) == "(9)";
    assert Render(Paren(a)) == "(" + Render(a) + ")";
    ShapeCat(Paren(NINE), Paren(a));
    ShapeXor(a, x);
    ShapeXor(NINE, Paren(Xor(a, x)));
    Int83Text(Render(a));
  }

  /** The text of INT_823's pattern, regrouped as the table writes it. */
  lemma Int823Text(ra: string)
    ensures "(" + "9" + "^" + ("(" + ra + "." + "(9^9)" + ")") + ")" == "(9^(" + ra + ".(9^9)))"
  {
  }

  /** The text of INT_861's pattern, regrouped as the table writes it. */
  lemma Int861Text(ra: string)
    ensures "(" + "99" + "^" + ("(" + ra + "." + "(9^9)" + ")") + ")" == "(99^(" + ra + ".(9^9)))"
  {
  }

  /** `(9 ^ (a . (9^9)))` and `(99 ^ (a . (9^9)))`. */
  lemma ShapeInt823(a: Expr)
    ensures Render(Paren(Xor(NINE, Paren(Concat(a, Paren(Xor(NINE, NINE)))))))
         == "(9^(" + Render(a) + ".(9^9)))"
    ensures Render(Paren(Xor(Nines(2), Paren(Concat(a, Paren(Xor(NINE, NINE)))))))
         == "(99^(" + Render(a) + ".(9^9)))"
  {
    var x := Paren(Xor(NINE, NINE));
    assert Render(NINE) == "9";
    assert Render(Nines(2)) == "99";
    assert Render(x) == "(9^9)";
    ShapeCat(a, x);
    ShapeXor(NINE, Paren(Concat(a, x)));
    ShapeXor(Nines(2), Paren(Concat(a, x)));
    Int823Text(Render(a));
    Int861Text(Render(a));
  }

  /** The text of INT_8's pattern, regrouped as the table writes it. */
  lemma Int8Text(ra: string, rb: string, rc: string, rd: string, re: string, rf: string)
    ensures "(" + ("((" + ra + "." + rb + ")^(" + rc + "." + rd + ")^" + re + ")" + "^" + rf) + ")"
         == "(((" + ra + "." + rb + ")^(" + rc + "." + rd + ")^" + re + ")^" + rf + ")"
  {
  }

  lemma ShapeInt8(a: Expr, b: Expr, c: Expr, d: Expr, e: Expr, f: Expr)
    ensures Render(Paren(Xor(Paren(Xor(Xor(Paren(Concat(a, b)), Paren(Concat(c, d))), e)), f)))
         == "(((" + Render(a) + "." + Render(b) + ")^(" + Render(c) + "." + Render(d) + ")^" + Render(e) + ")^" + Render(f) + ")"
  {
    var x := Paren(Xor(Xor(Paren(Concat(a, b)), Paren(Concat(c, d))), e));
    ShapeStr80(a, b, c, d, e);
    assert Render(Paren(Xor(x, f))) == "(" + (Render(x) + "^" + Render(f)) + ")";
    Int8Text(Render(a), Render(b), Render(c), Render(d), Render(e), Render(f));
  }

  /** The text of INT_1's pattern, regrouped as the table writes it. */
  lemma Int1Text(ra: string, rb: string, rc: string, rd: string)
    ensures "(" + (("(" + (ra + "^" + rb + "^" + rc) + ")") + "^" + rd) + ")"
         == "((" + ra + "^" + rb + "^" + rc + ")^" + rd + ")"
  {
  }

  lemma ShapeInt1(a: Expr, b: Expr, c: Expr, d: Expr)
    ensures Render(Paren(Xor(Paren(Xor(Xor(a, b), c)), d)))
         == "((" + Render(a) + "^" + Render(b) + "^" + Render(c) + ")^" + Render(d) + ")"
  {
    var x := Paren(Xor(Xor(a, b), c));
    assert Render(Xor(a, b)) == Render(a) + "^" + Render(b);
    assert Render(x) == "(" + (Render(a) + "^" + Render(b) + "^" + Render(c)) + ")";
    assert Render(Paren(Xor(x, d))) == "(" + (Render(x) + "^" + Render(d)) + ")";
    Int1Text(Render(a), Render(b), Render(c), Render(d));
  }

  /** The text of INT_3's pattern, regrouped as the table writes it. */
  lemma Int3Text(ra: string, rb: string, rc: string, rd: string, re: string, rf: string)
    ensures "(" + (("(" + (ra + "." + rb) + ")") + "^" + ("(" + (("(" + (rc + "." + rd) + ")") + "^" + re) + ")") + "^" + rf) + ")"
         == "((" + ra + "." + rb + ")^((" + rc + "." + rd + ")^" + re + ")^" + rf + ")"
  {
  }

  lemma ShapeInt3(a: Expr, b: Expr, c: Expr, d: Expr, e: Expr, f: Expr)
    ensures Render(Paren(Xor(Xor(Paren(Concat(a, b)), Paren(Xor(Paren(Concat(c, d)), e))), f)))
         == "((" + Render(a) + "." + Render(b) + ")^((" + Render(c) + "." + Render(d) + ")^" + Render(e) + ")^" + Render(f) + ")"
  {
    var x, y := Paren(Concat(a, b)), Paren(Concat(c, d));
    var z := Paren(Xor(y, e));
    assert Render(x) == "(" + (Render(a) + "." + Render(b)) + ")";
    assert Render(y) == "(" + (Render(c) + "." + Render(d)) + ")";
    assert Render(z) == "(" + (Render(y) + "^" + Render(e)) + ")";
    assert Render(Xor(x, z)) == Render(x) + "^" + Render(z);
    assert Render(Paren(Xor(Xor(x, z), f))) == "(" + (Render(x) + "^" + Render(z) + "^" + Render(f)) + ")";
    Int3Text(Render(a), Render(b), Render(c), Render(d), Render(e), Render(f));
  }

  /** INT_8's pattern with a parenthesised third part, regrouped as the table writes INT_6. */
  lemma Int6Text(ra: string, rb: string, rc: string, rd: string, re: string, rf: string)
    ensures "(((" + ra + "." + rb + ")^(" + ("(" + rc + ")") + "." + rd + ")^" + re + ")^" + rf + ")"
         == "(((" + ra + "." + rb + ")^((" + rc + ")." + rd + ")^" + re + ")^" + rf + ")"
  {
  }

  lemma ShapeInt6(a: Expr, b: Expr, c: Expr, d: Expr, e: Expr, f: Expr)
    ensures Render(Paren(Xor(Paren(Xor(Xor(Paren(Concat(a, b)), Paren(Concat(Paren(c), d))), e)), f)))
         == "(((" + Render(a) + "." + Render(b) + ")^((" + Render(c) + ")." + Render(d) + ")^" + Render(e) + ")^" + Render(f) + ")"
  {
    assert Render(Paren(c)) == "(" + Render(c) + ")";
    ShapeInt8(a, b, Paren(c), d, e, f);
    Int6Text(Render(a), Render(b), Render(c), Render(d), Render(e), Render(f));
  }

  /** The text of INT_7's pattern, regrouped as the table writes it. */
  lemma Int7Text(ra: string, rb: string, rc: string, rd: string, re: string, rf: string, rg: string)
    ensures "(" + (("(" + (("(" + (ra + "." + rb) + ")") + "^" + ("(" + (rc + "." + rd) + ")") + "^" + ("(" + (re + "." + rf) + ")")) + ")") + "^" + rg) + ")"
         == "(((" + ra + "." + rb + ")^(" + rc + "." + rd + ")^(" + re + "." + rf + "))^" + rg + ")"
  {
  }

  lemma ShapeInt7(a: Expr, b: Expr, c: Expr, d: Expr, e: Expr, f: Expr, g: Expr)
    ensures Render(Paren(Xor(Paren(Xor(Xor(Paren(Concat(a, b)), Paren(Concat(c, d))), Paren(Concat(e, f)))), g)))
         == "(((" + Render(a) + "." + Render(b) + ")^(" + Render(c) + "." + Render(d) + ")^(" + Render(e) + "." + Render(f) + "))^" + Render(g) + ")"
  {
    var x, y, z := Paren(Concat(a, b)), Paren(Concat(c, d)), Paren(Concat(e, f));
    var w := Paren(Xor(Xor(x, y), z));
    assert Render(x) == "(" + (Render(a) + "." + Render(b)) + ")";
    assert Render(y) == "(" + (Render(c) + "." + Render(d)) + ")";
    assert Render(z) == "(" + (Render(e) + "." + Render(f)) + ")";
    assert Render(Xor(x, y)) == Render(x) + "^" + Render(y);
    assert Render(w) == "(" + (Render(x) + "^" + Render(y) + "^" + Render(z)) + ")";
    assert Render(Paren(Xor(w, g))) == "(" + (Render(w) + "^" + Render(g)) + ")";
    Int7Text(Render(a), Render(b), Render(c), Render(d), Render(e), Render(f), Render(g));
  }

  /** The text of STR_CHR's pattern, regrouped as the table writes it. */
  lemma StrChrText(ra: string, rb: string, rc: string, rd: string, re: string, rf: string, rg: string)
    ensures "(" + (ra + "^" + ("(" + (rb + "." + rc + "." + rd) + ")") + "^" + ("(" + (re + "." + rf + "." + rg) + ")")) + ")"
         == "(" + ra + "^(" + rb + "." + rc + "." + rd + ")^(" + re + "." + rf + "." + rg + "))"
  {
  }

  lemma ShapeStrChr(a: Expr, b: Expr, c: Expr, d: Expr, e: Expr, f: Expr, g: Expr)
    ensures Render(Paren(Xor(Xor(a, Paren(Concat(Concat(b, c), d))), Paren(Concat(Concat(e, f), g)))))
         == "(" + Render(a) + "^(" + Render(b) + "." + Render(c) + "." + Render(d) + ")^(" + Render(e) + "." + Render(f) + "." + Render(g) + "))"
  {
    var x, y := Paren(Concat(Concat(b, c), d)), Paren(Concat(Concat(e, f), g));
    assert Render(Concat(b, c)) == Render(b) + "." + Render(c);
    assert Render(x) == "(" + (Render(b) + "." + Render(c) + "." + Render(d)) + ")";
    assert Render(Concat(e, f)) == Render(e) + "." + Render(f);
    assert Render(y) == "(" + (Render(e) + "." + Render(f) + "." + Render(g)) + ")";
    assert Render(Xor(a, x)) == Render(a) + "^" + Render(x);
    assert Render(Paren(Xor(Xor(a, x), y))) == "(" + (Render(a) + "^" + Render(x) + "^" + Render(y)) + ")";
    StrChrText(Render(a), Render(b), Render(c), Render(d), Render(e), Render(f), Render(g));
  }

  lemma RenderSmallConstants()
    ensures Render(INT_9_TREE) == INT_9 && Render(INT_0_TREE) == INT_0
    ensures Render(STR_99_TREE) == STR_99 && Render(INT_99_TREE) == INT_99
    ensures Render(STR_00_TREE) == STR_00 && Render(INT_106_TREE) == INT_106
  {
    assert Render(INT_9_TREE) == INT_9;
    assert Render(INT_0_TREE) == INT_0;
    ShapeCat(INT_9_TREE, INT_9_TREE);
    ShapeCat(INT_0_TREE, INT_0_TREE);
    ShapeXor(INT_9_TREE, INT_99_TREE);
  }

  lemma RenderStr80()
    ensures Render(STR_80_TREE) == STR_80
  {
    RenderSmallConstants();
    ShapeStr80(INT_0_TREE, INT_9_TREE, INT_106_TREE, INT_9_TREE, STR_99_TREE);
  }

  lemma RenderInt80()
    ensures Render(INT_80_TREE) == INT_80 && Render(STR_980_TREE) == STR_980 && Render(INT_51_TREE) == INT_51
  {
    RenderSmallConstants();
    RenderStr80();
    ShapeXor(STR_80_TREE, INT_0_TREE);
    ShapeCat(INT_9_TREE, STR_80_TREE);
    ShapeXor(INT_99_TREE, INT_80_TREE);
  }

  lemma RenderInt83()
    ensures Render(INT_83_TREE) == INT_83
  {
    RenderSmallConstants();
    ShapeInt83(INT_0_TREE);
  }

  lemma RenderInt823()
    ensures Render(INT_823_TREE) == INT_823 && Render(INT_861_TREE) == INT_861
  {
    RenderInt83();
    ShapeInt823(INT_83_TREE);
  }

  lemma RenderInt8()
    ensures Render(INT_8_TREE) == INT_8
  {
    RenderSmallConstants();
    RenderStr80();
    ShapeInt8(INT_9_TREE, STR_80_TREE, INT_9_TREE, INT_0_TREE, STR_00_TREE, INT_0_TREE);
  }

  lemma RenderInt1()
    ensures Render(INT_1_TREE) == INT_1
  {
    RenderSmallConstants();
    RenderInt80();
    ShapeInt1(STR_99_TREE, STR_980_TREE, STR_00_TREE, INT_0_TREE);
  }

  lemma RenderInt2()
    ensures Render(INT_2_TREE) == INT_2
  {
    RenderSmallConstants();
    RenderInt823();
    RenderInt8();
    ShapeInt8(INT_823_TREE, INT_9_TREE, INT_8_TREE, INT_0_TREE, STR_00_TREE, INT_0_TREE);
  }

  lemma RenderInt3()
    ensures Render(INT_3_TREE) == INT_3
  {
    RenderSmallConstants();
    RenderInt83();
    RenderInt8();
    ShapeInt3(INT_83_TREE, INT_9_TREE, INT_8_TREE, INT_0_TREE, STR_00_TREE, INT_0_TREE);
  }

  lemma RenderInt4()
    ensures Render(INT_4_TREE) == INT_4 && Render(INT_5_TREE) == INT_5
  {
    RenderSmallConstants();
    RenderInt80();
    ShapeInt8(INT_9_TREE, INT_51_TREE, INT_9_TREE, INT_106_TREE, STR_00_TREE, INT_0_TREE);
    ShapeInt8(INT_9_TREE, INT_51_TREE, INT_9_TREE, INT_0_TREE, STR_00_TREE, INT_0_TREE);
  }

  lemma RenderInt6()
    ensures Render(INT_6_TREE) == INT_6
  {
    RenderSmallConstants();
    RenderInt823();
    RenderInt8();
    ShapeInt6(INT_861_TREE, INT_9_TREE, INT_8_TREE, INT_0_TREE, STR_00_TREE, INT_0_TREE);
  }

  lemma RenderInt7()
    ensures Render(INT_7_TREE) == INT_7
  {
    RenderSmallConstants();
    RenderInt6();
    RenderInt1();
    ShapeInt7(INT_9_TREE, INT_6_TREE, INT_9_TREE, INT_1_TREE, INT_0_TREE, INT_0_TREE, INT_0_TREE);
  }

  lemma RenderStrInf9()
    ensures Render(STR_INF9_TREE) == STR_INF9
  {
    ShapeCat(Paren(Nines(309)), Paren(NINE));
  }

  lemma RenderStrNullNull()
    ensures Render(STR_NULL_NULL_TREE) == STR_NULL_NULL
  {
    var x := Paren(Concat(Paren(NINE), Paren(NINE)));
    ShapeCat(Paren(NINE), Paren(NINE));
    ShapeXor(x, x);
  }

  lemma RenderStrChr()
    ensures Render(STR_CHR_TREE) == STR_CHR
  {
    RenderSmallConstants();
    RenderInt8();
    RenderInt6();
    RenderInt4();
    RenderInt2();
    RenderStrInf9();
    RenderStrNullNull();
    ShapeStrChr(STR_INF9_TREE, INT_8_TREE, INT_6_TREE, INT_4_TREE, INT_2_TREE, INT_0_TREE, STR_NULL_NULL_TREE);
  }

  // One lemma per arm of the digit `match`: each reasons about one table entry only.

  lemma RenderDigit0(d: nat)
    requires d == 0
    ensures Render(DIGIT_TREES[d]) == DIGIT_CONSTANTS[d]
  {
    var t := DIGIT_TREES[d];
    assert t == INT_0_TREE;
    RenderSmallConstants();
  }

  lemma RenderDigit1(d: nat)
    requires d == 1
    ensures Render(DIGIT_TREES[d]) == DIGIT_CONSTANTS[d]
  {
    var t := DIGIT_TREES[d];
    assert t == INT_1_TREE;
    RenderInt1();
  }

  lemma RenderDigit2(d: nat)
    requires d == 2
    ensures Render(DIGIT_TREES[d]) == DIGIT_CONSTANTS[d]
  {
    var t := DIGIT_TREES[d];
    assert t == INT_2_TREE;
    RenderInt2();
  }

  lemma RenderDigit3(d: nat)
    requires d == 3
    ensures Render(DIGIT_TREES[d]) == DIGIT_CONSTANTS[d]
  {
    var t := DIGIT_TREES[d];
    assert t == INT_3_TREE;
    RenderInt3();
  }

  lemma RenderDigit4(d: nat)
    requires d == 4
    ensures Render(DIGIT_TREES[d]) == DIGIT_CONSTANTS[d]
  {
    var t := DIGIT_TREES[d];
    assert t == INT_4_TREE;
    RenderInt4();
  }

  lemma RenderDigit5(d: nat)
    requires d == 5
    ensures Render(DIGIT_TREES[d]) == DIGIT_CONSTANTS[d]
  {
    var t := DIGIT_TREES[d];
    assert t == INT_5_TREE;
    RenderInt4();
  }

  lemma RenderDigit6(d: nat)
    requires d == 6
    ensures Render(DIGIT_TREES[d]) == DIGIT_CONSTANTS[d]
  {
    var t := DIGIT_TREES[d];
    assert t == INT_6_TREE;
    RenderInt6();
  }

  lemma RenderDigit7(d: nat)
    requires d == 7
    ensures Render(DIGIT_TREES[d]) == DIGIT_CONSTANTS[d]
  {
    var t := DIGIT_TREES[d];
    assert t == INT_7_TREE;
    RenderInt7();
  }

  lemma RenderDigit8(d: nat)
    requires d == 8
    ensures Render(DIGIT_TREES[d]) == DIGIT_CONSTANTS[d]
  {
    var t := DIGIT_TREES[d];
    assert t == INT_8_TREE;
    RenderInt8();
  }

  lemma RenderDigit9(d: nat)
    requires d == 9
    ensures Render(DIGIT_TREES[d]) == DIGIT_CONSTANTS[d]
  {
    var t := DIGIT_TREES[d];
    assert t == INT_9_TREE;
    RenderSmallConstants();
  }

  /** The digit table holds, for each digit, the text of its tree. */
  lemma RenderDigitTree(d: nat)
    requires d < 10
    ensures Render(DIGIT_TREES[d]) == DIGIT_CONSTANTS[d]
  {
    if d == 0 {
      RenderDigit0(d);
    } else if d == 1 {
      RenderDigit1(d);
    } else if d == 2 {
      RenderDigit2(d);
    } else if d == 3 {
      RenderDigit3(d);
    } else if d == 4 {
      RenderDigit4(d);
    } else if d == 5 {
      RenderDigit5(d);
    } else if d == 6 {
      RenderDigit6(d);
    } else if d == 7 {
      RenderDigit7(d);
    } else if d == 8 {
      RenderDigit8(d);
    } else {
      RenderDigit9(d);
    }
  }
}
