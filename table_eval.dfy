/**
 * Each constant's tree evaluates to the value its name promises: the digit
 * constants to their digit, STR_CHR to a string naming `chr`.
 *
 * Every lemma here only glues: it cites the values of the subtrees and the
 * arithmetic fact that combines them, one operator at a time.
 */
module TableEval {
  import opened PhpValues
  import opened PhpExpr
  import opened PhpTable
  import opened TableArith

  // ---------------------------------------------------------------------------
  // One operator at a time, bare and in parentheses

  lemma CatShape(a: Expr, b: Expr, x: Value, y: Value, v: seq<Byte>)
    requires Eval(a) == Some(x) && Eval(b) == Some(y) && ToStr(x) + ToStr(y) == v
    ensures Eval(Concat(a, b)) == Some(Str(v)) && Eval(Paren(Concat(a, b))) == Some(Str(v))
  {
  }

  lemma XorShape(a: Expr, b: Expr, x: Value, y: Value, v: Value)
    requires Eval(a) == Some(x) && Eval(b) == Some(y) && XorValues(x, y) == Some(v)
    ensures Eval(Xor(a, b)) == Some(v) && Eval(Paren(Xor(a, b))) == Some(v)
  {
  }

  // ---------------------------------------------------------------------------
  // The constants, in the order the table defines them

  lemma EvalNines()
    ensures Eval(NINE) == Some(Int(9)) && Eval(INT_9_TREE) == Some(Int(9))
    ensures Eval(Nines(2)) == Some(Int(99)) && Eval(INT_99_TREE) == Some(Int(99))
  {
    LiteralKinds(1);
    LiteralKinds(2);
  }

  lemma EvalInt0()
    ensures Eval(INT_0_TREE) == Some(Int(0))
  {
    EvalNines();
    IntXor9_9();
    XorShape(NINE, NINE, Int(9), Int(9), Int(0));
  }

  lemma EvalStr99()
    ensures Eval(STR_99_TREE) == Some(Str([57, 57]))
  {
    EvalNines();
    Cat99();
    CatShape(INT_9_TREE, INT_9_TREE, Int(9), Int(9), [57, 57]);
  }

  lemma EvalStr00()
    ensures Eval(STR_00_TREE) == Some(Str([48, 48]))
  {
    EvalInt0();
    Cat00();
    CatShape(INT_0_TREE, INT_0_TREE, Int(0), Int(0), [48, 48]);
  }

  lemma EvalInt106()
    ensures Eval(INT_106_TREE) == Some(Int(106))
  {
    EvalNines();
    IntXor9_99();
    XorShape(INT_9_TREE, INT_99_TREE, Int(9), Int(99), Int(106));
  }

  /** STR_80 is the string "80": "09" ^ "1069" ^ "99". */
  lemma EvalStr80()
    ensures Eval(STR_80_TREE) == Some(Str([56, 48]))
  {
    EvalNines();
    EvalInt0();
    EvalInt106();
    EvalStr99();
    var a, b := Paren(Concat(INT_0_TREE, INT_9_TREE)), Paren(Concat(INT_106_TREE, INT_9_TREE));
    Cat09();
    CatShape(INT_0_TREE, INT_9_TREE, Int(0), Int(9), [48, 57]);
    Cat1069();
    CatShape(INT_106_TREE, INT_9_TREE, Int(106), Int(9), [49, 48, 54, 57]);
    Str80First();
    XorShape(a, b, Str([48, 57]), Str([49, 48, 54, 57]), Str([1, 9]));
    Str80Second();
    XorShape(Xor(a, b), STR_99_TREE, Str([1, 9]), Str([57, 57]), Str([56, 48]));
  }

  /** INT_80 is "80" ^ 0. */
  lemma EvalInt80()
    ensures Eval(INT_80_TREE) == Some(Int(80))
  {
    EvalInt0();
    EvalStr80();
    Read80();
    XorShape(STR_80_TREE, INT_0_TREE, Str([56, 48]), Int(0), Int(80));
  }

  /** INT_83 is 9 ^ (0 ^ "90"). */
  lemma EvalInt83()
    ensures Eval(INT_83_TREE) == Some(Int(83))
  {
    EvalNines();
    EvalInt0();
    assert Eval(Paren(INT_0_TREE)) == Some(Int(0));
    Cat90();
    CatShape(Paren(NINE), Paren(INT_0_TREE), Int(9), Int(0), [57, 48]);
    var c := Paren(Concat(Paren(NINE), Paren(INT_0_TREE)));
    Read90();
    XorShape(INT_0_TREE, c, Int(0), Str([57, 48]), Int(90));
    IntXor9_90();
    XorShape(NINE, Paren(Xor(INT_0_TREE, c)), Int(9), Int(90), Int(83));
  }

  /** The string "830" that INT_823 and INT_861 both read. */
  lemma Eval830()
    ensures Eval(Paren(Concat(INT_83_TREE, Paren(Xor(NINE, NINE))))) == Some(Str([56, 51, 48]))
  {
    EvalInt83();
    EvalInt0();
    Cat830();
    CatShape(INT_83_TREE, Paren(Xor(NINE, NINE)), Int(83), Int(0), [56, 51, 48]);
  }

  /** INT_823 is 9 ^ "830" and INT_861 is 99 ^ "830". */
  lemma EvalInt823()
    ensures Eval(INT_823_TREE) == Some(Int(823)) && Eval(INT_861_TREE) == Some(Int(861))
  {
    EvalNines();
    Eval830();
    var s := Paren(Concat(INT_83_TREE, Paren(Xor(NINE, NINE))));
    Read823();
    XorShape(NINE, s, Int(9), Str([56, 51, 48]), Int(823));
    Read861();
    XorShape(Nines(2), s, Int(99), Str([56, 51, 48]), Int(861));
  }

  /** STR_980 is "9" . "80". */
  lemma EvalStr980()
    ensures Eval(STR_980_TREE) == Some(Str([57, 56, 48]))
  {
    EvalNines();
    EvalStr80();
    Cat980();
    CatShape(INT_9_TREE, STR_80_TREE, Int(9), Str([56, 48]), [57, 56, 48]);
  }

  /** INT_51 is 99 ^ 80. */
  lemma EvalInt51()
    ensures Eval(INT_51_TREE) == Some(Int(51))
  {
    EvalNines();
    EvalInt80();
    IntXor99_80();
    XorShape(INT_99_TREE, INT_80_TREE, Int(99), Int(80), Int(51));
  }

  /**
   * The pattern of most digit constants: two strings XORed into "\0" and a
   * digit byte, XORed with "00" into "0" and the digit, read as an integer
   * by `^ 0`.
   */
  lemma DigitPattern(a: Expr, b: Expr, c: Expr, s: seq<Byte>, t: seq<Byte>, u: seq<Byte>, w: seq<Byte>, d: nat)
    requires Eval(a) == Some(Str(s)) && Eval(b) == Some(Str(t)) && Eval(c) == Some(Str([48, 48]))
    requires XorValues(Str(s), Str(t)) == Some(Str(u))
    requires XorValues(Str(u), Str([48, 48])) == Some(Str(w))
    requires XorValues(Str(w), Int(0)) == Some(Int(d))
    ensures Eval(Paren(Xor(Paren(Xor(Xor(a, b), c)), INT_0_TREE))) == Some(Int(d))
  {
    EvalInt0();
    XorShape(a, b, Str(s), Str(t), Str(u));
    XorShape(Xor(a, b), c, Str(u), Str([48, 48]), Str(w));
    XorShape(Paren(Xor(Xor(a, b), c)), INT_0_TREE, Str(w), Int(0), Int(d));
  }

  /** INT_8 is ("980" ^ "90" ^ "00") ^ 0. */
  lemma EvalInt8()
    ensures Eval(INT_8_TREE) == Some(Int(8))
  {
    EvalStr980();
    EvalNines();
    EvalInt0();
    EvalStr00();
    Cat90();
    CatShape(INT_9_TREE, INT_0_TREE, Int(9), Int(0), [57, 48]);
    Int8First();
    Int8Second();
    Read08();
    DigitPattern(STR_980_TREE, Paren(Concat(INT_9_TREE, INT_0_TREE)), STR_00_TREE,
      [57, 56, 48], [57, 48], [0, 8], [48, 56], 8);
  }

  /** INT_1 is ("99" ^ "980" ^ "00") ^ 0. */
  lemma EvalInt1()
    ensures Eval(INT_1_TREE) == Some(Int(1))
  {
    EvalStr99();
    EvalStr980();
    EvalStr00();
    Int1First();
    Int1Second();
    Read01();
    DigitPattern(STR_99_TREE, STR_980_TREE, STR_00_TREE, [57, 57], [57, 56, 48], [0, 1], [48, 49], 1);
  }

  /** The string "80" that INT_2, INT_3 and INT_6 build from INT_8 and INT_0. */
  lemma Eval80From8()
    ensures Eval(Paren(Concat(INT_8_TREE, INT_0_TREE))) == Some(Str([56, 48]))
    ensures Eval(Paren(Concat(Paren(INT_8_TREE), INT_0_TREE))) == Some(Str([56, 48]))
  {
    EvalInt8();
    EvalInt0();
    Cat80();
    CatShape(INT_8_TREE, INT_0_TREE, Int(8), Int(0), [56, 48]);
    CatShape(Paren(INT_8_TREE), INT_0_TREE, Int(8), Int(0), [56, 48]);
  }

  /** INT_2 is ("8239" ^ "80" ^ "00") ^ 0. */
  lemma EvalInt2()
    ensures Eval(INT_2_TREE) == Some(Int(2))
  {
    EvalInt823();
    EvalNines();
    EvalStr00();
    Eval80From8();
    Cat8239();
    CatShape(INT_823_TREE, INT_9_TREE, Int(823), Int(9), [56, 50, 51, 57]);
    Int2First();
    Int2Second();
    Read02();
    DigitPattern(Paren(Concat(INT_823_TREE, INT_9_TREE)), Paren(Concat(INT_8_TREE, INT_0_TREE)), STR_00_TREE,
      [56, 50, 51, 57], [56, 48], [0, 2], [48, 50], 2);
  }

  /** INT_3 is ("839" ^ ("80" ^ "00")) ^ 0. */
  lemma EvalInt3()
    ensures Eval(INT_3_TREE) == Some(Int(3))
  {
    EvalInt83();
    EvalNines();
    EvalInt0();
    EvalStr00();
    Eval80From8();
    var a, b := Paren(Concat(INT_83_TREE, INT_9_TREE)), Paren(Concat(INT_8_TREE, INT_0_TREE));
    Cat839();
    CatShape(INT_83_TREE, INT_9_TREE, Int(83), Int(9), [56, 51, 57]);
    Int3First();
    XorShape(b, STR_00_TREE, Str([56, 48]), Str([48, 48]), Str([8, 0]));
    Int3Second();
    XorShape(a, Paren(Xor(b, STR_00_TREE)), Str([56, 51, 57]), Str([8, 0]), Str([48, 51]));
    Read03();
    XorShape(Xor(a, Paren(Xor(b, STR_00_TREE))), INT_0_TREE, Str([48, 51]), Int(0), Int(3));
  }

  /** The string "951" that INT_4 and INT_5 both start from. */
  lemma Eval951()
    ensures Eval(Paren(Concat(INT_9_TREE, INT_51_TREE))) == Some(Str([57, 53, 49]))
  {
    EvalNines();
    EvalInt51();
    Cat951();
    CatShape(INT_9_TREE, INT_51_TREE, Int(9), Int(51), [57, 53, 49]);
  }

  /** INT_4 is ("951" ^ "9106" ^ "00") ^ 0. */
  lemma EvalInt4()
    ensures Eval(INT_4_TREE) == Some(Int(4))
  {
    Eval951();
    EvalNines();
    EvalInt106();
    EvalStr00();
    Cat9106();
    CatShape(INT_9_TREE, INT_106_TREE, Int(9), Int(106), [57, 49, 48, 54]);
    Int4First();
    Int4Second();
    Read04();
    DigitPattern(Paren(Concat(INT_9_TREE, INT_51_TREE)), Paren(Concat(INT_9_TREE, INT_106_TREE)), STR_00_TREE,
      [57, 53, 49], [57, 49, 48, 54], [0, 4, 1], [48, 52], 4);
  }

  /** INT_5 is ("951" ^ "90" ^ "00") ^ 0. */
  lemma EvalInt5()
    ensures Eval(INT_5_TREE) == Some(Int(5))
  {
    Eval951();
    EvalNines();
    EvalInt0();
    EvalStr00();
    Cat90();
    CatShape(INT_9_TREE, INT_0_TREE, Int(9), Int(0), [57, 48]);
    Int5First();
    Int5Second();
    Read05();
    DigitPattern(Paren(Concat(INT_9_TREE, INT_51_TREE)), Paren(Concat(INT_9_TREE, INT_0_TREE)), STR_00_TREE,
      [57, 53, 49], [57, 48], [0, 5], [48, 53], 5);
  }

  /** INT_6 is ("8619" ^ "80" ^ "00") ^ 0. */
  lemma EvalInt6()
    ensures Eval(INT_6_TREE) == Some(Int(6))
  {
    EvalInt823();
    EvalNines();
    EvalStr00();
    Eval80From8();
    Cat8619();
    CatShape(INT_861_TREE, INT_9_TREE, Int(861), Int(9), [56, 54, 49, 57]);
    Int6First();
    Int6Second();
    Read06();
    DigitPattern(Paren(Concat(INT_861_TREE, INT_9_TREE)), Paren(Concat(Paren(INT_8_TREE), INT_0_TREE)), STR_00_TREE,
      [56, 54, 49, 57], [56, 48], [0, 6], [48, 54], 6);
  }

  /** INT_7 is ("96" ^ "91" ^ "00") ^ 0. */
  lemma EvalInt7()
    ensures Eval(INT_7_TREE) == Some(Int(7))
  {
    EvalNines();
    EvalInt6();
    EvalInt1();
    EvalInt0();
    Cat96();
    CatShape(INT_9_TREE, INT_6_TREE, Int(9), Int(6), [57, 54]);
    Cat91();
    CatShape(INT_9_TREE, INT_1_TREE, Int(9), Int(1), [57, 49]);
    Cat00();
    CatShape(INT_0_TREE, INT_0_TREE, Int(0), Int(0), [48, 48]);
    Int7First();
    Int7Second();
    Read07();
    DigitPattern(Paren(Concat(INT_9_TREE, INT_6_TREE)), Paren(Concat(INT_9_TREE, INT_1_TREE)),
      Paren(Concat(INT_0_TREE, INT_0_TREE)), [57, 54], [57, 49], [0, 7], [48, 55], 7);
  }

  /** Each digit constant evaluates to its digit. */
  lemma EvalDigitTree(d: nat)
    requires d < 10
    ensures Eval(DIGIT_TREES[d]) == Some(Int(d))
  {
    if d == 0 {
      assert DIGIT_TREES[d] == INT_0_TREE;
      EvalInt0();
    } else if d == 1 {
      assert DIGIT_TREES[d] == INT_1_TREE;
      EvalInt1();
    } else if d == 2 {
      assert DIGIT_TREES[d] == INT_2_TREE;
      EvalInt2();
    } else if d == 3 {
      assert DIGIT_TREES[d] == INT_3_TREE;
      EvalInt3();
    } else if d == 4 {
      assert DIGIT_TREES[d] == INT_4_TREE;
      EvalInt4();
    } else if d == 5 {
      assert DIGIT_TREES[d] == INT_5_TREE;
      EvalInt5();
    } else if d == 6 {
      assert DIGIT_TREES[d] == INT_6_TREE;
      EvalInt6();
    } else if d == 7 {
      assert DIGIT_TREES[d] == INT_7_TREE;
      EvalInt7();
    } else if d == 8 {
      assert DIGIT_TREES[d] == INT_8_TREE;
      EvalInt8();
    } else {
      assert DIGIT_TREES[d] == INT_9_TREE;
      EvalNines();
    }
  }

  // ---------------------------------------------------------------------------
  // The name of chr

  /** STR_INF9 is "INF" . "9": the 309 nines overflow a double to INF. */
  lemma EvalStrInf9()
    ensures Eval(STR_INF9_TREE) == Some(Str([73, 78, 70, 57]))
  {
    LiteralKinds(309);
    EvalNines();
    CatInf9();
    CatShape(Paren(Nines(309)), Paren(NINE), Inf, Int(9), [73, 78, 70, 57]);
  }

  /** STR_NULL_NULL is "99" ^ "99", two zero bytes. */
  lemma EvalStrNullNull()
    ensures Eval(STR_NULL_NULL_TREE) == Some(Str([0, 0]))
  {
    EvalNines();
    Cat99();
    CatShape(Paren(NINE), Paren(NINE), Int(9), Int(9), [57, 57]);
    var a := Paren(Concat(Paren(NINE), Paren(NINE)));
    NullNull();
    XorShape(a, a, Str([57, 57]), Str([57, 57]), Str([0, 0]));
  }

  /** "864", from INT_8, INT_6 and INT_4. */
  lemma Eval864()
    ensures Eval(Paren(Concat(Concat(INT_8_TREE, INT_6_TREE), INT_4_TREE))) == Some(Str([56, 54, 52]))
  {
    EvalInt8();
    EvalInt6();
    EvalInt4();
    Cat86();
    CatShape(INT_8_TREE, INT_6_TREE, Int(8), Int(6), [56, 54]);
    Cat864();
    CatShape(Concat(INT_8_TREE, INT_6_TREE), INT_4_TREE, Str([56, 54]), Int(4), [56, 54, 52]);
  }

  /** "20" followed by two zero bytes, from INT_2, INT_0 and STR_NULL_NULL. */
  lemma Eval2000()
    ensures Eval(Paren(Concat(Concat(INT_2_TREE, INT_0_TREE), STR_NULL_NULL_TREE))) == Some(Str([50, 48, 0, 0]))
  {
    EvalInt2();
    EvalInt0();
    EvalStrNullNull();
    Cat20();
    CatShape(INT_2_TREE, INT_0_TREE, Int(2), Int(0), [50, 48]);
    Cat2000();
    CatShape(Concat(INT_2_TREE, INT_0_TREE), STR_NULL_NULL_TREE, Str([50, 48]), Str([0, 0]), [50, 48, 0, 0]);
  }

  /** STR_CHR is "CHr": "INF9" ^ "864" ^ "20\0\0", a name PHP resolves to chr. */
  lemma EvalStrChr()
    ensures Eval(STR_CHR_TREE) == Some(Str([67, 72, 114]))
    ensures NamesChr([67, 72, 114])
  {
    EvalStrInf9();
    Eval864();
    Eval2000();
    var b := Paren(Concat(Concat(INT_8_TREE, INT_6_TREE), INT_4_TREE));
    var c := Paren(Concat(Concat(INT_2_TREE, INT_0_TREE), STR_NULL_NULL_TREE));
    ChrFirst();
    XorShape(STR_INF9_TREE, b, Str([73, 78, 70, 57]), Str([56, 54, 52]), Str([113, 120, 114]));
    ChrSecond();
    XorShape(Xor(STR_INF9_TREE, b), c, Str([113, 120, 114]), Str([50, 48, 0, 0]), Str([67, 72, 114]));
  }
}
