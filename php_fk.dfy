/**
 * The encoder: PHP text made only of `9 ( ) . ^` that evaluates to a given
 * non-negative integer or byte string, and the program wrapper around it.
 *
 * Each output is given twice: as the text the original builds, and as the
 * parse tree of that text. The lemmas show that the tree renders to the text
 * and that the tree evaluates to the encoded value.
 */
module PhpFk {
  import opened PhpValues
  import opened PhpExpr
  import opened PhpTable
  import opened TableRender
  import opened TableEval
  import opened PhpParse
  import opened TableParse

  // ---------------------------------------------------------------------------
  // Joining pieces of text

  /** `join($sep, $parts)`. */
  function Join(sep: string, parts: seq<string>): string {
    if |parts| == 0 then ""
    else if |parts| == 1 then parts[0]
    else Join(sep, parts[..|parts| - 1]) + sep + parts[|parts| - 1]
  }

  /** The parse tree of `p0 . p1 . … . pk`, grouped to the left as PHP groups it. */
  function ConcatChain(parts: seq<Expr>): Expr
    requires |parts| > 0
  {
    if |parts| == 1 then parts[0]
    else Concat(ConcatChain(parts[..|parts| - 1]), parts[|parts| - 1])
  }

  // ---------------------------------------------------------------------------
  // Integers

  /**
   * `obfuscatePositiveInteger($nb)`: the table entry for a digit; otherwise
   * the encodings of the decimal digits, each in parentheses, joined by `.`
   * into a numeric string, then `^ 0` to turn that string into an integer.
   */
  function ObfuscatePositiveInteger(n: nat): (r: string)
    decreases n
  {
    if n < 10 then DIGIT_CONSTANTS[n]
    else
      var ds := DecimalBytes(n);
      "((" + Join(").(", seq(|ds|, i requires 0 <= i < |ds| => ObfuscatePositiveInteger(DigitValue(ds[i])))) + ")^" + INT_0 + ")"
  }

  /** The parse tree of `ObfuscatePositiveInteger(n)`; always parenthesised. */
  function IntegerTree(n: nat): (e: Expr)
    ensures e.Paren?
    decreases n
  {
    if n < 10 then
      DigitTreeParen(n);
      DIGIT_TREES[n]
    else
      var ds := DecimalBytes(n);
      Paren(Xor(ConcatChain(seq(|ds|, i requires 0 <= i < |ds| => Paren(IntegerTree(DigitValue(ds[i]))))), INT_0_TREE))
  }

  lemma DigitTreeParen(d: nat)
    requires d < 10
    ensures DIGIT_TREES[d].Paren?
  {
  }

  // ---------------------------------------------------------------------------
  // Joins and chains

  /** Joining with `).(` inside one pair of parentheses parenthesises every piece. */
  lemma {:induction false} JoinParens(parts: seq<string>)
    requires |parts| > 0
    ensures "(" + Join(").(", parts) + ")" == Join(".", seq(|parts|, i requires 0 <= i < |parts| => "(" + parts[i] + ")"))
  {
    var wrapped := seq(|parts|, i requires 0 <= i < |parts| => "(" + parts[i] + ")");
    if |parts| > 1 {
      var init := parts[..|parts| - 1];
      JoinParens(init);
      assert wrapped[..|parts| - 1] == seq(|init|, i requires 0 <= i < |init| => "(" + init[i] + ")");
    }
  }

  /** A chain renders to its parts' texts joined by `.`. */
  lemma {:induction false} RenderChain(parts: seq<Expr>, texts: seq<string>)
    requires |parts| == |texts| > 0
    requires forall i :: 0 <= i < |parts| ==> Render(parts[i]) == texts[i]
    ensures Render(ConcatChain(parts)) == Join(".", texts)
  {
    if |parts| > 1 {
      RenderChain(parts[..|parts| - 1], texts[..|texts| - 1]);
    }
  }

  /**
   * A chain of at least two parts, each of which evaluates to a value whose
   * string is one byte of t, evaluates to the string t.
   */
  lemma {:induction false} EvalChain(parts: seq<Expr>, t: seq<Byte>)
    requires |parts| == |t| >= 2
    requires forall i :: 0 <= i < |parts| ==> Eval(parts[i]).Some? && ToStr(Eval(parts[i]).value) == [t[i]]
    ensures Eval(ConcatChain(parts)) == Some(Str(t))
  {
    SpellsChain(parts, t);
  }

  /** Each part evaluates to a value whose string is the corresponding byte of t. */
  predicate SpellsBytes(parts: seq<Expr>, t: seq<Byte>) {
    |parts| == |t| && forall i :: 0 <= i < |parts| ==> Eval(parts[i]).Some? && ToStr(Eval(parts[i]).value) == [t[i]]
  }

  lemma SpellsPrefix(parts: seq<Expr>, t: seq<Byte>)
    requires SpellsBytes(parts, t) && |parts| >= 1
    ensures SpellsBytes(parts[..|parts| - 1], t[..|t| - 1])
  {
    var k := |parts|;
    assert forall i :: 0 <= i < k - 1 ==> parts[..k - 1][i] == parts[i] && t[..k - 1][i] == t[i];
  }

  lemma {:induction false} SpellsChain(parts: seq<Expr>, t: seq<Byte>)
    requires SpellsBytes(parts, t) && |parts| >= 2
    ensures Eval(ConcatChain(parts)) == Some(Str(t))
    decreases |parts|
  {
    var k := |parts|;
    var init, front := parts[..k - 1], t[..k - 1];
    var last := Eval(parts[k - 1]).value;
    assert ToStr(last) == [t[k - 1]];
    ChainSnoc(parts);
    assert t == front + [t[k - 1]];
    if k == 2 {
      var first := Eval(parts[0]).value;
      assert ToStr(first) == [t[0]];
      assert ConcatChain(init) == parts[0];
      EvalConcatOf(parts[0], parts[1], first, last);
      assert t == [t[0]] + [t[1]];
    } else {
      SpellsPrefix(parts, t);
      SpellsChain(init, front);
      EvalConcatOf(ConcatChain(init), parts[k - 1], Str(front), last);
    }
  }

  /** A chain of several parts is the chain of all but the last, `.` the last. */
  lemma ChainSnoc(parts: seq<Expr>)
    requires |parts| >= 2
    ensures ConcatChain(parts) == Concat(ConcatChain(parts[..|parts| - 1]), parts[|parts| - 1])
  {
  }

  /** `a . b` is the string of a's value followed by the string of b's value. */
  lemma EvalConcatOf(a: Expr, b: Expr, x: Value, y: Value)
    requires Eval(a) == Some(x) && Eval(b) == Some(y)
    ensures Eval(Concat(a, b)) == Some(Str(ToStr(x) + ToStr(y)))
  {
  }

  // ---------------------------------------------------------------------------
  // The integer encoding renders and evaluates as promised

  /** A digit's tree is the table entry, and renders to the table's text. */
  lemma RenderDigitInteger(d: nat)
    requires d < 10
    ensures Render(IntegerTree(d)) == ObfuscatePositiveInteger(d)
  {
    RenderDigitTree(d);
  }

  /** A digit's tree evaluates to the digit. */
  lemma EvalDigitInteger(d: nat)
    requires d < 10
    ensures Eval(IntegerTree(d)) == Some(Int(d))
  {
    EvalDigitTree(d);
  }

  /** The tree of n renders to exactly the text the encoder produces for n. */
  lemma RenderIntegerTree(n: nat)
    ensures Render(IntegerTree(n)) == ObfuscatePositiveInteger(n)
  {
    if n < 10 {
      RenderDigitInteger(n);
    } else {
      RenderManyDigits(n);
    }
  }

  lemma RenderManyDigits(n: nat)
    requires n >= 10
    ensures Render(IntegerTree(n)) == ObfuscatePositiveInteger(n)
  {
    var ds := DecimalBytes(n);
    var texts := seq(|ds|, i requires 0 <= i < |ds| => ObfuscatePositiveInteger(DigitValue(ds[i])));
    var parts := seq(|ds|, i requires 0 <= i < |ds| => Paren(IntegerTree(DigitValue(ds[i]))));
    forall i | 0 <= i < |ds|
      ensures Render(parts[i]) == "(" + texts[i] + ")"
    {
      RenderDigitInteger(DigitValue(ds[i]));
    }
    var wrapped := seq(|texts|, i requires 0 <= i < |texts| => "(" + texts[i] + ")");
    assert Render(ConcatChain(parts)) == "(" + Join(").(", texts) + ")" by {
      RenderChain(parts, wrapped);
      JoinParens(texts);
    }
    assert Render(INT_0_TREE) == INT_0 by {
      RenderSmallConstants();
    }
    assert IntegerTree(n) == Paren(Xor(ConcatChain(parts), INT_0_TREE));
    assert ObfuscatePositiveInteger(n) == "((" + Join(").(", texts) + ")^" + INT_0 + ")";
  }

  /** The tree of n evaluates to n: the round trip through the digit table and `^ 0`. */
  lemma EvalIntegerTree(n: nat)
    requires n <= PHP_INT_MAX
    ensures Eval(IntegerTree(n)) == Some(Int(n))
  {
    if n < 10 {
      EvalDigitInteger(n);
    } else {
      EvalManyDigits(n);
    }
  }

  lemma EvalManyDigits(n: nat)
    requires 10 <= n <= PHP_INT_MAX
    ensures Eval(IntegerTree(n)) == Some(Int(n))
  {
    var ds := DecimalBytes(n);
    var parts := seq(|ds|, i requires 0 <= i < |ds| => Paren(IntegerTree(DigitValue(ds[i]))));
    forall i | 0 <= i < |ds|
      ensures Eval(parts[i]).Some? && ToStr(Eval(parts[i]).value) == [ds[i]]
    {
      EvalDigitInteger(DigitValue(ds[i]));
    }
    EvalChain(parts, ds);
    DecimalRoundTrip(n);
    EvalInt0();
    assert XorValues(Str(ds), Int(0)) == Some(Int(n));
  }

  /** Recursion goes one level deep: every piece of a multi-digit encoding is a table entry. */
  lemma PiecesAreTableEntries(n: nat)
    requires n >= 10
    ensures ObfuscatePositiveInteger(n) == "((" + Join(").(", DigitPieces(DecimalBytes(n))) + ")^" + INT_0 + ")"
  {
    var ds := DecimalBytes(n);
    assert seq(|ds|, i requires 0 <= i < |ds| => ObfuscatePositiveInteger(DigitValue(ds[i]))) == DigitPieces(ds);
  }

  /** The table entries of a string of decimal digits, in order. */
  function DigitPieces(ds: seq<Byte>): (pieces: seq<string>)
    requires forall i :: 0 <= i < |ds| ==> IsDigit(ds[i])
    ensures |pieces| == |ds|
    ensures forall i :: 0 <= i < |ds| ==> pieces[i] == DIGIT_CONSTANTS[DigitValue(ds[i])]
  {
    seq(|ds|, i requires 0 <= i < |ds| => DIGIT_CONSTANTS[DigitValue(ds[i])])
  }

  // ---------------------------------------------------------------------------
  // Strings

  /** `STR_CHR . obfuscatePositiveInteger(ord($char))`: the text of one byte. */
  function ObfuscateByte(b: Byte): string {
    STR_CHR + ObfuscatePositiveInteger(b)
  }

  /**
   * `obfuscateString($str)`: the empty string for an empty input, otherwise
   * the text of each byte, in order, joined by `.`.
   */
  function ObfuscateString(s: seq<Byte>): (r: string) {
    if s == [] then "" else Join(".", MapBytes(ObfuscateByte, s))
  }

  /** `array_map($f, str_split($s))`: f applied to each byte, in order. */
  function MapBytes(f: Byte -> string, s: seq<Byte>): (r: seq<string>)
    ensures |r| == |s| && forall i :: 0 <= i < |s| ==> r[i] == f(s[i])
  {
    seq(|s|, i requires 0 <= i < |s| => f(s[i]))
  }

  /** The tree of one byte: STR_CHR called on the byte's integer expression. */
  function ByteTree(b: Byte): Expr {
    Call(STR_CHR_TREE, IntegerTree(b).inner)
  }

  function StringTree(s: seq<Byte>): Expr
    requires s != []
  {
    ConcatChain(seq(|s|, i requires 0 <= i < |s| => ByteTree(s[i])))
  }

  /** A call's text is the callee's text followed by the parenthesised argument. */
  lemma RenderCallOf(f: Expr, x: Expr, text: string)
    requires x.Paren? && Render(f) == text
    ensures Render(Call(f, x.inner)) == text + Render(x)
  {
  }

  /** Calling an expression that names chr on an integer. */
  lemma EvalCallOf(f: Expr, x: Expr, name: seq<Byte>, n: nat)
    requires x.Paren? && Eval(f) == Some(Str(name)) && NamesChr(name) && Eval(x) == Some(Int(n))
    ensures Eval(Call(f, x.inner)) == Some(Str(Chr(n)))
  {
  }

  lemma RenderByteTree(b: Byte)
    ensures Render(ByteTree(b)) == ObfuscateByte(b)
  {
    RenderStrChr();
    RenderIntegerTree(b);
    RenderCallOf(STR_CHR_TREE, IntegerTree(b), STR_CHR);
  }

  /** One byte's text calls chr on the byte and gives back the one-byte string. */
  lemma EvalByteTree(b: Byte)
    ensures Eval(ByteTree(b)) == Some(Str([b]))
  {
    EvalStrChr();
    EvalIntegerTree(b);
    EvalCallOf(STR_CHR_TREE, IntegerTree(b), [67, 72, 114], b);
    ChrOfByte(b);
  }

  lemma RenderStringTree(s: seq<Byte>)
    requires s != []
    ensures Render(StringTree(s)) == ObfuscateString(s)
  {
    var parts := seq(|s|, i requires 0 <= i < |s| => ByteTree(s[i]));
    var texts := MapBytes(ObfuscateByte, s);
    forall i | 0 <= i < |s|
      ensures Render(parts[i]) == texts[i]
    {
      RenderByteTree(s[i]);
    }
    RenderChain(parts, texts);
  }

  /** The encoding of a non-empty string evaluates to that string. */
  lemma EvalStringTree(s: seq<Byte>)
    requires s != []
    ensures Eval(StringTree(s)) == Some(Str(s))
  {
    var parts := seq(|s|, i requires 0 <= i < |s| => ByteTree(s[i]));
    forall i | 0 <= i < |s|
      ensures Eval(parts[i]) == Some(Str([s[i]]))
    {
      EvalByteTree(s[i]);
    }
    if |s| == 1 {
      assert s == [s[0]];
    } else {
      EvalChain(parts, s);
    }
  }

  // ---------------------------------------------------------------------------
  // Shape of the string encoding

  /** Joining two non-empty lists of pieces joins their joins. */
  lemma {:induction false} JoinAppend(sep: string, a: seq<string>, b: seq<string>)
    requires |a| > 0 && |b| > 0
    ensures Join(sep, a + b) == Join(sep, a) + sep + Join(sep, b)
    decreases |b|
  {
    var ab := a + b;
    if |b| == 1 {
      assert ab[..|ab| - 1] == a;
    } else {
      var init := b[..|b| - 1];
      JoinAppend(sep, a, init);
      assert ab[..|ab| - 1] == a + init;
    }
  }

  lemma MapBytesAppend(f: Byte -> string, s: seq<Byte>, t: seq<Byte>)
    ensures MapBytes(f, s + t) == MapBytes(f, s) + MapBytes(f, t)
  {
  }

  /**
   * The encoding follows the input byte by byte: the encoding of `s + t` is
   * the encoding of s, a `.`, and the encoding of t.
   */
  lemma ObfuscateStringAppend(s: seq<Byte>, t: seq<Byte>)
    requires s != [] && t != []
    ensures ObfuscateString(s + t) == ObfuscateString(s) + "." + ObfuscateString(t)
  {
    MapBytesAppend(ObfuscateByte, s, t);
    JoinAppend(".", MapBytes(ObfuscateByte, s), MapBytes(ObfuscateByte, t));
  }

  /** The empty string is encoded as the empty text. */
  lemma ObfuscateEmptyString()
    ensures ObfuscateString([]) == ""
  {
  }

  /** A one-byte string is encoded as that byte's text alone. */
  lemma ObfuscateOneByte(b: Byte)
    ensures ObfuscateString([b]) == STR_CHR + ObfuscatePositiveInteger(b)
  {
  }

  // ---------------------------------------------------------------------------
  // The alphabet

  /** Every encoded integer is made of `9 ( ) . ^` only. */
  lemma IntegerInAlphabet(n: nat)
    ensures InAlphabet(ObfuscatePositiveInteger(n))
  {
    RenderIntegerTree(n);
    RenderInAlphabet(IntegerTree(n));
  }

  /** Every encoded string is made of `9 ( ) . ^` only. */
  lemma StringInAlphabet(s: seq<Byte>)
    ensures InAlphabet(ObfuscateString(s))
  {
    if s != [] {
      RenderStringTree(s);
      RenderInAlphabet(StringTree(s));
    }
  }

  // ---------------------------------------------------------------------------
  // The program wrapper

  /**
   * The bytes of a text, one per character. The texts below are ASCII, so
   * the reduction modulo 256 leaves every code as it is.
   */
  function TextBytes(text: string): (r: seq<Byte>)
    ensures |r| == |text|
    ensures forall i :: 0 <= i < |r| ==> r[i] == (text[i] as int) % 256
  {
    if text == [] then [] else [(text[0] as int) % 256] + TextBytes(text[1..])
  }

  const ARRAY_MAP: seq<Byte> := TextBytes("array_map")
  const JSON_DECODE: seq<Byte> := TextBytes("json_decode")
  const JSON_ENCODE: seq<Byte> := TextBytes("json_encode")
  /** The JSON list that becomes the arguments of `array_map`. */
  const CALL_LIST: seq<Byte> :=
    TextBytes("[\"call_user_func\",[\"FFI::cdef\",\"strval\"],[\"char zend_eval_string(const char*,int,const char*);\",\"zend_eval_string\"]]")
  const OPEN_LIST: seq<Byte> := TextBytes("[")
  const CLOSE_LIST: seq<Byte> := TextBytes(",0,\"\"]")

  /**
   * The template of `obfuscateCode`, its slots filled in order with the
   * encodings of `array_map`, `json_decode`, the call list, `json_decode`
   * again, `[`, `json_encode`, the code and `,0,""]`.
   */
  function Template(arrayMap: string, jsonDecode: string, jsonEncode: string,
                    callList: string, open: string, code: string, close: string): (r: string)
  {
    "((" + arrayMap + ")(...(" + jsonDecode + ")(" + callList + ")))(...(" + jsonDecode + ")("
    + open + ".((" + jsonEncode + ")(" + code + "))." + close + "))"
  }

  /** `obfuscateCode($code)`. */
  function ObfuscateCode(code: seq<Byte>): (r: string) {
    Template(ObfuscateString(ARRAY_MAP), ObfuscateString(JSON_DECODE), ObfuscateString(JSON_ENCODE),
      ObfuscateString(CALL_LIST), ObfuscateString(OPEN_LIST), ObfuscateString(code), ObfuscateString(CLOSE_LIST))
  }

  /** Everything the template puts before the code. */
  function TemplatePrefix(arrayMap: string, jsonDecode: string, jsonEncode: string, callList: string, open: string): string {
    "((" + arrayMap + ")(...(" + jsonDecode + ")(" + callList + ")))(...(" + jsonDecode + ")(" + open + ".((" + jsonEncode + ")("
  }

  /** Everything the template puts after the code. */
  function TemplateSuffix(close: string): string {
    "))." + close + "))"
  }

  /** The code sits in one slot, after a prefix and before a suffix that do not depend on it. */
  lemma TemplateFrame(arrayMap: string, jsonDecode: string, jsonEncode: string,
                      callList: string, open: string, code: string, close: string)
    ensures Template(arrayMap, jsonDecode, jsonEncode, callList, open, code, close)
         == TemplatePrefix(arrayMap, jsonDecode, jsonEncode, callList, open) + code + TemplateSuffix(close)
  {
  }

  /** The encoded code appears once, between a prefix and a suffix that do not depend on it. */
  lemma CodeFrame(code: seq<Byte>)
    ensures ObfuscateCode(code) == CodePrefix() + ObfuscateString(code) + CodeSuffix()
  {
    TemplateFrame(ObfuscateString(ARRAY_MAP), ObfuscateString(JSON_DECODE), ObfuscateString(JSON_ENCODE),
      ObfuscateString(CALL_LIST), ObfuscateString(OPEN_LIST), ObfuscateString(code), ObfuscateString(CLOSE_LIST));
  }

  function CodePrefix(): string {
    TemplatePrefix(ObfuscateString(ARRAY_MAP), ObfuscateString(JSON_DECODE), ObfuscateString(JSON_ENCODE),
      ObfuscateString(CALL_LIST), ObfuscateString(OPEN_LIST))
  }

  function CodeSuffix(): string {
    TemplateSuffix(ObfuscateString(CLOSE_LIST))
  }

  /** The template adds only `( ) .` to its slots. */
  lemma TemplateInAlphabet(arrayMap: string, jsonDecode: string, jsonEncode: string,
                           callList: string, open: string, code: string, close: string)
    requires InAlphabet(arrayMap) && InAlphabet(jsonDecode) && InAlphabet(jsonEncode)
    requires InAlphabet(callList) && InAlphabet(open) && InAlphabet(code) && InAlphabet(close)
    ensures InAlphabet(Template(arrayMap, jsonDecode, jsonEncode, callList, open, code, close))
  {
    var t := Template(arrayMap, jsonDecode, jsonEncode, callList, open, code, close);
    forall i | 0 <= i < |t|
      ensures t[i] in ALPHABET
    {
      TemplateFrame(arrayMap, jsonDecode, jsonEncode, callList, open, code, close);
    }
  }

  /** Every program the wrapper produces is made of `9 ( ) . ^` only. */
  lemma CodeInAlphabet(code: seq<Byte>)
    ensures InAlphabet(ObfuscateCode(code))
  {
    StringInAlphabet(code);
    StringInAlphabet(ARRAY_MAP);
    StringInAlphabet(JSON_DECODE);
    StringInAlphabet(JSON_ENCODE);
    StringInAlphabet(CALL_LIST);
    StringInAlphabet(OPEN_LIST);
    StringInAlphabet(CLOSE_LIST);
    TemplateInAlphabet(ObfuscateString(ARRAY_MAP), ObfuscateString(JSON_DECODE), ObfuscateString(JSON_ENCODE),
      ObfuscateString(CALL_LIST), ObfuscateString(OPEN_LIST), ObfuscateString(code), ObfuscateString(CLOSE_LIST));
  }

  // ---------------------------------------------------------------------------
  // From text to value

  /** A chain of primaries is a chain at the `.` level. */
  lemma {:induction false} ConcatChainLevel(parts: seq<Expr>)
    requires |parts| > 0 && forall i :: 0 <= i < |parts| ==> Primary(parts[i])
    ensures ConcatLevel(ConcatChain(parts))
  {
    if |parts| > 1 {
      ConcatChainLevel(parts[..|parts| - 1]);
    }
  }

  /** The tree of every integer encoding is well formed. */
  lemma IntegerTreeWellFormed(n: nat)
    ensures WellFormed(IntegerTree(n))
  {
    if n < 10 {
      DigitTreeWellFormed(n);
    } else {
      var ds := DecimalBytes(n);
      var parts := seq(|ds|, i requires 0 <= i < |ds| => Paren(IntegerTree(DigitValue(ds[i]))));
      forall i | 0 <= i < |ds|
        ensures Primary(parts[i])
      {
        DigitTreeWellFormed(DigitValue(ds[i]));
      }
      ConcatChainLevel(parts);
      SmallTreesWellFormed();
      PrimaryWellFormed(INT_0_TREE);
      assert XorOperand(ConcatChain(parts));
      ParenWellFormed(Xor(ConcatChain(parts), INT_0_TREE));
      assert IntegerTree(n) == Paren(Xor(ConcatChain(parts), INT_0_TREE));
    }
  }

  /** The tree of every non-empty string encoding is well formed. */
  lemma StringTreeWellFormed(s: seq<Byte>)
    requires s != []
    ensures WellFormed(StringTree(s))
  {
    var parts := seq(|s|, i requires 0 <= i < |s| => ByteTree(s[i]));
    StrChrWellFormed();
    forall i | 0 <= i < |s|
      ensures Primary(parts[i])
    {
      IntegerTreeWellFormed(s[i]);
      ParenInnerWellFormed(IntegerTree(s[i]));
    }
    ConcatChainLevel(parts);
  }

  /**
   * The text `obfuscatePositiveInteger` produces, read and evaluated as PHP
   * does, is the integer it encodes.
   */
  lemma IntegerTextValue(n: nat)
    requires n <= PHP_INT_MAX
    ensures Parse(ObfuscatePositiveInteger(n)) == Some(IntegerTree(n))
    ensures EvalText(ObfuscatePositiveInteger(n)) == Some(Int(n))
  {
    IntegerTreeWellFormed(n);
    ParseRoundTrip(IntegerTree(n));
    RenderIntegerTree(n);
    EvalIntegerTree(n);
  }

  /**
   * The text `obfuscateString` produces for a non-empty string, read and
   * evaluated as PHP does, is that string.
   */
  lemma StringTextValue(s: seq<Byte>)
    requires s != []
    ensures Parse(ObfuscateString(s)) == Some(StringTree(s))
    ensures EvalText(ObfuscateString(s)) == Some(Str(s))
  {
    StringTreeWellFormed(s);
    ParseRoundTrip(StringTree(s));
    RenderStringTree(s);
    EvalStringTree(s);
  }

  /** STR_CHR's text evaluates to `CHr`, a name of the built-in `chr`. */
  lemma StrChrTextValue()
    ensures EvalText(STR_CHR) == Some(Str([67, 72, 114])) && NamesChr([67, 72, 114])
  {
    StrChrWellFormed();
    ParenWellFormed(STR_CHR_TREE.inner);
    ParseRoundTrip(STR_CHR_TREE);
    RenderStrChr();
    EvalStrChr();
  }

  /** Only the empty string has the empty encoding. */
  lemma EncodingEmpty(s: seq<Byte>)
    ensures ObfuscateString(s) == "" <==> s == []
  {
    if s != [] {
      StringTextValue(s);
      assert Parse("") == None;
    }
  }

  /** Different strings have different encodings: the text determines the string. */
  lemma StringInjective(a: seq<Byte>, b: seq<Byte>)
    requires ObfuscateString(a) == ObfuscateString(b)
    ensures a == b
  {
    EncodingEmpty(a);
    EncodingEmpty(b);
    if a != [] && b != [] {
      StringTextValue(a);
      StringTextValue(b);
    }
  }

  /** Equal texts around equal frames have equal middles. */
  lemma FrameCancel(prefix: string, x: string, y: string, suffix: string)
    requires prefix + x + suffix == prefix + y + suffix
    ensures x == y
  {
    var t := prefix + x + suffix;
    assert |x| == |y|;
    assert x == t[|prefix|..|prefix| + |x|];
  }

  /** Different code gives different programs: the program determines the code it carries. */
  lemma CodeInjective(a: seq<Byte>, b: seq<Byte>)
    requires ObfuscateCode(a) == ObfuscateCode(b)
    ensures a == b
  {
    CodeFrame(a);
    CodeFrame(b);
    FrameCancel(CodePrefix(), ObfuscateString(a), ObfuscateString(b), CodeSuffix());
    StringInjective(a, b);
  }
}
