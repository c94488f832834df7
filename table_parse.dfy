/**
 * The constant trees are well formed: PHP reads each constant's text back
 * as its tree.
 */
module TableParse {
  import opened PhpExpr
  import opened PhpTable

  /** A parenthesised well-formed expression is a primary, hence well formed itself. */
  lemma ParenWellFormed(x: Expr)
    requires WellFormed(x)
    ensures Primary(Paren(x)) && WellFormed(Paren(x))
  {
  }

  /** Inside a well-formed parenthesised expression is a well-formed expression. */
  lemma ParenInnerWellFormed(e: Expr)
    requires e.Paren? && WellFormed(e)
    ensures WellFormed(e.inner)
  {
    assert XorOperand(e) && ConcatLevel(e) && Primary(e);
  }

  /** A primary is an operand of `^` and a well-formed expression on its own. */
  lemma PrimaryWellFormed(e: Expr)
    requires Primary(e)
    ensures ConcatLevel(e) && XorOperand(e) && WellFormed(e)
  {
  }

  lemma SmallTreesWellFormed()
    ensures WellFormed(INT_9_TREE) && WellFormed(INT_0_TREE) && WellFormed(INT_99_TREE)
    ensures WellFormed(STR_99_TREE) && WellFormed(STR_00_TREE) && WellFormed(INT_106_TREE)
  {
    ParenWellFormed(NINE);
    ParenWellFormed(Xor(NINE, NINE));
    ParenWellFormed(Nines(2));
    ParenWellFormed(Concat(INT_9_TREE, INT_9_TREE));
    ParenWellFormed(Concat(INT_0_TREE, INT_0_TREE));
    ParenWellFormed(Xor(INT_9_TREE, INT_99_TREE));
  }

  lemma Str80WellFormed()
    ensures WellFormed(STR_80_TREE) && WellFormed(INT_80_TREE)
    ensures WellFormed(STR_980_TREE) && WellFormed(INT_51_TREE)
  {
    SmallTreesWellFormed();
    ParenWellFormed(Concat(INT_0_TREE, INT_9_TREE));
    ParenWellFormed(Concat(INT_106_TREE, INT_9_TREE));
    var x := Xor(Xor(Paren(Concat(INT_0_TREE, INT_9_TREE)), Paren(Concat(INT_106_TREE, INT_9_TREE))), STR_99_TREE);
    ParenWellFormed(x);
    ParenWellFormed(Xor(STR_80_TREE, INT_0_TREE));
    ParenWellFormed(Concat(INT_9_TREE, STR_80_TREE));
    ParenWellFormed(Xor(INT_99_TREE, INT_80_TREE));
  }

  lemma Int83WellFormed()
    ensures WellFormed(INT_83_TREE) && WellFormed(INT_823_TREE) && WellFormed(INT_861_TREE)
  {
    SmallTreesWellFormed();
    ParenWellFormed(NINE);
    ParenWellFormed(INT_0_TREE);
    ParenWellFormed(Concat(Paren(NINE), Paren(INT_0_TREE)));
    ParenWellFormed(Xor(INT_0_TREE, Paren(Concat(Paren(NINE), Paren(INT_0_TREE)))));
    ParenWellFormed(Xor(NINE, Paren(Xor(INT_0_TREE, Paren(Concat(Paren(NINE), Paren(INT_0_TREE)))))));
    ParenWellFormed(Concat(INT_83_TREE, Paren(Xor(NINE, NINE))));
    ParenWellFormed(Xor(NINE, Paren(Concat(INT_83_TREE, Paren(Xor(NINE, NINE))))));
    ParenWellFormed(Xor(Nines(2), Paren(Concat(INT_83_TREE, Paren(Xor(NINE, NINE))))));
  }

  /**
   * The shape shared by INT_8, INT_1, INT_2, INT_4, INT_5, INT_6 and INT_7:
   * `((a ^ b ^ c) ^ INT_0)` over three primaries.
   */
  lemma DigitShapeWellFormed(a: Expr, b: Expr, c: Expr)
    requires Primary(a) && Primary(b) && Primary(c)
    ensures WellFormed(Paren(Xor(Paren(Xor(Xor(a, b), c)), INT_0_TREE)))
  {
    SmallTreesWellFormed();
    PrimaryWellFormed(a);
    PrimaryWellFormed(b);
    PrimaryWellFormed(c);
    assert WellFormed(Xor(a, b));
    ParenWellFormed(Xor(Xor(a, b), c));
    ParenWellFormed(Xor(Paren(Xor(Xor(a, b), c)), INT_0_TREE));
  }

  lemma Int8WellFormed()
    ensures WellFormed(INT_8_TREE) && WellFormed(INT_1_TREE)
  {
    SmallTreesWellFormed();
    Str80WellFormed();
    ParenWellFormed(Concat(INT_9_TREE, STR_80_TREE));
    ParenWellFormed(Concat(INT_9_TREE, INT_0_TREE));
    DigitShapeWellFormed(Paren(Concat(INT_9_TREE, STR_80_TREE)), Paren(Concat(INT_9_TREE, INT_0_TREE)), STR_00_TREE);
    DigitShapeWellFormed(STR_99_TREE, STR_980_TREE, STR_00_TREE);
  }

  lemma Int2WellFormed()
    ensures WellFormed(INT_2_TREE) && WellFormed(INT_3_TREE)
  {
    SmallTreesWellFormed();
    Int83WellFormed();
    Int8WellFormed();
    ParenWellFormed(Concat(INT_823_TREE, INT_9_TREE));
    ParenWellFormed(Concat(INT_8_TREE, INT_0_TREE));
    DigitShapeWellFormed(Paren(Concat(INT_823_TREE, INT_9_TREE)), Paren(Concat(INT_8_TREE, INT_0_TREE)), STR_00_TREE);
    ParenWellFormed(Concat(INT_83_TREE, INT_9_TREE));
    ParenWellFormed(Xor(Paren(Concat(INT_8_TREE, INT_0_TREE)), STR_00_TREE));
    ParenWellFormed(Xor(Xor(Paren(Concat(INT_83_TREE, INT_9_TREE)), Paren(Xor(Paren(Concat(INT_8_TREE, INT_0_TREE)), STR_00_TREE))), INT_0_TREE));
  }

  lemma Int4WellFormed()
    ensures WellFormed(INT_4_TREE) && WellFormed(INT_5_TREE)
  {
    SmallTreesWellFormed();
    Str80WellFormed();
    ParenWellFormed(Concat(INT_9_TREE, INT_51_TREE));
    ParenWellFormed(Concat(INT_9_TREE, INT_106_TREE));
    ParenWellFormed(Concat(INT_9_TREE, INT_0_TREE));
    DigitShapeWellFormed(Paren(Concat(INT_9_TREE, INT_51_TREE)), Paren(Concat(INT_9_TREE, INT_106_TREE)), STR_00_TREE);
    DigitShapeWellFormed(Paren(Concat(INT_9_TREE, INT_51_TREE)), Paren(Concat(INT_9_TREE, INT_0_TREE)), STR_00_TREE);
  }

  lemma Int6WellFormed()
    ensures WellFormed(INT_6_TREE) && WellFormed(INT_7_TREE)
  {
    SmallTreesWellFormed();
    Int83WellFormed();
    Int8WellFormed();
    ParenWellFormed(Concat(INT_861_TREE, INT_9_TREE));
    ParenWellFormed(INT_8_TREE);
    ParenWellFormed(Concat(Paren(INT_8_TREE), INT_0_TREE));
    DigitShapeWellFormed(Paren(Concat(INT_861_TREE, INT_9_TREE)), Paren(Concat(Paren(INT_8_TREE), INT_0_TREE)), STR_00_TREE);
    ParenWellFormed(Concat(INT_9_TREE, INT_6_TREE));
    ParenWellFormed(Concat(INT_9_TREE, INT_1_TREE));
    ParenWellFormed(Concat(INT_0_TREE, INT_0_TREE));
    DigitShapeWellFormed(Paren(Concat(INT_9_TREE, INT_6_TREE)), Paren(Concat(INT_9_TREE, INT_1_TREE)), Paren(Concat(INT_0_TREE, INT_0_TREE)));
  }

  /** Every digit constant's tree is well formed. */
  lemma DigitTreeWellFormed(d: nat)
    requires d < 10
    ensures WellFormed(DIGIT_TREES[d])
  {
    if d == 0 {
      assert DIGIT_TREES[d] == INT_0_TREE;
      SmallTreesWellFormed();
    } else if d == 1 {
      assert DIGIT_TREES[d] == INT_1_TREE;
      Int8WellFormed();
    } else if d == 2 {
      assert DIGIT_TREES[d] == INT_2_TREE;
      Int2WellFormed();
    } else if d == 3 {
      assert DIGIT_TREES[d] == INT_3_TREE;
      Int2WellFormed();
    } else if d == 4 {
      assert DIGIT_TREES[d] == INT_4_TREE;
      Int4WellFormed();
    } else if d == 5 {
      assert DIGIT_TREES[d] == INT_5_TREE;
      Int4WellFormed();
    } else if d == 6 {
      assert DIGIT_TREES[d] == INT_6_TREE;
      Int6WellFormed();
    } else if d == 7 {
      assert DIGIT_TREES[d] == INT_7_TREE;
      Int6WellFormed();
    } else if d == 8 {
      assert DIGIT_TREES[d] == INT_8_TREE;
      Int8WellFormed();
    } else {
      assert DIGIT_TREES[d] == INT_9_TREE;
      SmallTreesWellFormed();
    }
  }

  /** STR_CHR's tree is a parenthesised well-formed expression. */
  lemma StrChrWellFormed()
    ensures STR_CHR_TREE.Paren? && WellFormed(STR_CHR_TREE.inner)
  {
    SmallTreesWellFormed();
    Int8WellFormed();
    Int2WellFormed();
    Int4WellFormed();
    Int6WellFormed();
    ParenWellFormed(Nines(309));
    ParenWellFormed(NINE);
    ParenWellFormed(Concat(Paren(Nines(309)), Paren(NINE)));
    ParenWellFormed(Concat(Concat(INT_8_TREE, INT_6_TREE), INT_4_TREE));
    ParenWellFormed(Concat(Paren(NINE), Paren(NINE)));
    ParenWellFormed(Xor(Paren(Concat(Paren(NINE), Paren(NINE))), Paren(Concat(Paren(NINE), Paren(NINE)))));
    ParenWellFormed(Concat(Concat(INT_2_TREE, INT_0_TREE), STR_NULL_NULL_TREE));
  }
}
