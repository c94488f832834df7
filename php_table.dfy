/**
 * The constant table of the encoder: PHP text made only of `9 ( ) . ^` for
 * each digit and for the few strings the encoder needs.
 *
 * Every constant is kept as the text PHP sees, built exactly as the
 * original concatenates it, and beside it as the parse tree of that text.
 * Other modules tie each tree to its text (`Render`) and to its value (`Eval`).
 */
module PhpTable {
  import opened PhpExpr

  // ---------------------------------------------------------------------------
  // The constant table, as text

  /** The body of the literal in STR_INF9: 309 nines, too large for a double. */
  const NINES_309: string := Render(Nines(309))

  const INT_9 := "(9)"
  const INT_0 := "(9^9)"
  const STR_99 := "(" + INT_9 + "." + INT_9 + ")"
  const INT_99 := "(99)"
  const STR_00 := "(" + INT_0 + "." + INT_0 + ")"
  const INT_106 := "(" + INT_9 + "^" + INT_99 + ")"
  const STR_80 := "((" + INT_0 + "." + INT_9 + ")^(" + INT_106 + "." + INT_9 + ")^" + STR_99 + ")"
  const INT_80 := "(" + STR_80 + "^" + INT_0 + ")"
  const INT_83 := "(9^(" + INT_0 + "^((9).(" + INT_0 + "))))"
  const INT_823 := "(9^(" + INT_83 + ".(9^9)))"
  const INT_861 := "(99^(" + INT_83 + ".(9^9)))"
  const STR_980 := "(" + INT_9 + "." + STR_80 + ")"
  const INT_51 := "(" + INT_99 + "^" + INT_80 + ")"
  const INT_8 := "(((" + INT_9 + "." + STR_80 + ")^(" + INT_9 + "." + INT_0 + ")^" + STR_00 + ")^" + INT_0 + ")"
  const INT_1 := "((" + STR_99 + "^" + STR_980 + "^" + STR_00 + ")^" + INT_0 + ")"
  const INT_2 := "(((" + INT_823 + "." + INT_9 + ")^(" + INT_8 + "." + INT_0 + ")^" + STR_00 + ")^" + INT_0 + ")"
  const INT_3 := "((" + INT_83 + "." + INT_9 + ")^((" + INT_8 + "." + INT_0 + ")^" + STR_00 + ")^" + INT_0 + ")"
  const INT_4 := "(((" + INT_9 + "." + INT_51 + ")^(" + INT_9 + "." + INT_106 + ")^" + STR_00 + ")^" + INT_0 + ")"
  const INT_5 := "(((" + INT_9 + "." + INT_51 + ")^(" + INT_9 + "." + INT_0 + ")^" + STR_00 + ")^" + INT_0 + ")"
  const INT_6 := "(((" + INT_861 + "." + INT_9 + ")^((" + INT_8 + ")." + INT_0 + ")^" + STR_00 + ")^" + INT_0 + ")"
  const INT_7 := "(((" + INT_9 + "." + INT_6 + ")^(" + INT_9 + "." + INT_1 + ")^(" + INT_0 + "." + INT_0 + "))^" + INT_0 + ")"

  const STR_INF9 := "((" + NINES_309 + ").(9))"
  const STR_NULL_NULL := "(((9).(9))^((9).(9)))"
  const STR_CHR := "(" + STR_INF9 + "^(" + INT_8 + "." + INT_6 + "." + INT_4 + ")^(" + INT_2 + "." + INT_0 + "." + STR_NULL_NULL + "))"

  /** The ten digit constants, indexed by the digit they stand for. */
  const DIGIT_CONSTANTS: seq<string> := [INT_0, INT_1, INT_2, INT_3, INT_4, INT_5, INT_6, INT_7, INT_8, INT_9]

  // ---------------------------------------------------------------------------
  // The same constants as parse trees

  const NINE := Nines(1)
  const INT_9_TREE := Paren(NINE)
  const INT_0_TREE := Paren(Xor(NINE, NINE))
  const STR_99_TREE := Paren(Concat(INT_9_TREE, INT_9_TREE))
  const INT_99_TREE := Paren(Nines(2))
  const STR_00_TREE := Paren(Concat(INT_0_TREE, INT_0_TREE))
  const INT_106_TREE := Paren(Xor(INT_9_TREE, INT_99_TREE))
  const STR_80_TREE :=
    Paren(Xor(Xor(Paren(Concat(INT_0_TREE, INT_9_TREE)), Paren(Concat(INT_106_TREE, INT_9_TREE))), STR_99_TREE))
  const INT_80_TREE := Paren(Xor(STR_80_TREE, INT_0_TREE))
  const INT_83_TREE :=
    Paren(Xor(NINE, Paren(Xor(INT_0_TREE, Paren(Concat(Paren(NINE), Paren(INT_0_TREE)))))))
  const INT_823_TREE := Paren(Xor(NINE, Paren(Concat(INT_83_TREE, Paren(Xor(NINE, NINE))))))
  const INT_861_TREE := Paren(Xor(Nines(2), Paren(Concat(INT_83_TREE, Paren(Xor(NINE, NINE))))))
  const STR_980_TREE := Paren(Concat(INT_9_TREE, STR_80_TREE))
  const INT_51_TREE := Paren(Xor(INT_99_TREE, INT_80_TREE))
  const INT_8_TREE :=
    Paren(Xor(Paren(Xor(Xor(Paren(Concat(INT_9_TREE, STR_80_TREE)), Paren(Concat(INT_9_TREE, INT_0_TREE))), STR_00_TREE)), INT_0_TREE))
  const INT_1_TREE :=
    Paren(Xor(Paren(Xor(Xor(STR_99_TREE, STR_980_TREE), STR_00_TREE)), INT_0_TREE))
  const INT_2_TREE :=
    Paren(Xor(Paren(Xor(Xor(Paren(Concat(INT_823_TREE, INT_9_TREE)), Paren(Concat(INT_8_TREE, INT_0_TREE))), STR_00_TREE)), INT_0_TREE))
  const INT_3_TREE :=
    Paren(Xor(Xor(Paren(Concat(INT_83_TREE, INT_9_TREE)), Paren(Xor(Paren(Concat(INT_8_TREE, INT_0_TREE)), STR_00_TREE))), INT_0_TREE))
  const INT_4_TREE :=
    Paren(Xor(Paren(Xor(Xor(Paren(Concat(INT_9_TREE, INT_51_TREE)), Paren(Concat(INT_9_TREE, INT_106_TREE))), STR_00_TREE)), INT_0_TREE))
  const INT_5_TREE :=
    Paren(Xor(Paren(Xor(Xor(Paren(Concat(INT_9_TREE, INT_51_TREE)), Paren(Concat(INT_9_TREE, INT_0_TREE))), STR_00_TREE)), INT_0_TREE))
  const INT_6_TREE :=
    Paren(Xor(Paren(Xor(Xor(Paren(Concat(INT_861_TREE, INT_9_TREE)), Paren(Concat(Paren(INT_8_TREE), INT_0_TREE))), STR_00_TREE)), INT_0_TREE))
  const INT_7_TREE :=
    Paren(Xor(Paren(Xor(Xor(Paren(Concat(INT_9_TREE, INT_6_TREE)), Paren(Concat(INT_9_TREE, INT_1_TREE))), Paren(Concat(INT_0_TREE, INT_0_TREE)))), INT_0_TREE))

  const STR_INF9_TREE := Paren(Concat(Paren(Nines(309)), Paren(NINE)))
  const STR_NULL_NULL_TREE :=
    Paren(Xor(Paren(Concat(Paren(NINE), Paren(NINE))), Paren(Concat(Paren(NINE), Paren(NINE)))))
  const STR_CHR_TREE :=
    Paren(Xor(Xor(STR_INF9_TREE, Paren(Concat(Concat(INT_8_TREE, INT_6_TREE), INT_4_TREE))),
              Paren(Concat(Concat(INT_2_TREE, INT_0_TREE), STR_NULL_NULL_TREE))))

  const DIGIT_TREES: seq<Expr> :=
    [INT_0_TREE, INT_1_TREE, INT_2_TREE, INT_3_TREE, INT_4_TREE, INT_5_TREE, INT_6_TREE, INT_7_TREE, INT_8_TREE, INT_9_TREE]

}
