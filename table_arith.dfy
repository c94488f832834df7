/**
 * The integer and string arithmetic the constant table performs, worked out
 * on concrete values.
 */
module TableArith {
  import opened PhpValues

  // ---------------------------------------------------------------------------
  // The exclusive ors the constants perform. Each is computed a bit at a time,
  // from the highest bit down, so that the solver only ever unfolds one step.

  lemma Xor9_9() ensures NatXor(9, 9) == 0 {
    assert NatXor(1, 1) == 0;
    assert NatXor(2, 2) == 0;
    assert NatXor(4, 4) == 0;
  }

  lemma Xor9_99() ensures NatXor(9, 99) == 106 {
    assert NatXor(1, 12) == 13;
    assert NatXor(2, 24) == 26;
    assert NatXor(4, 49) == 53;
  }

  lemma Xor48_49() ensures NatXor(48, 49) == 1 {
    assert NatXor(1, 1) == 0;
    assert NatXor(3, 3) == 0;
    assert NatXor(6, 6) == 0;
    assert NatXor(12, 12) == 0;
    assert NatXor(24, 24) == 0;
  }

  lemma Xor49_48() ensures NatXor(49, 48) == 1 {
    assert NatXor(1, 1) == 0;
    assert NatXor(3, 3) == 0;
    assert NatXor(6, 6) == 0;
    assert NatXor(12, 12) == 0;
    assert NatXor(24, 24) == 0;
  }

  lemma Xor57_48() ensures NatXor(57, 48) == 9 {
    assert NatXor(1, 1) == 0;
    assert NatXor(3, 3) == 0;
    assert NatXor(7, 6) == 1;
    assert NatXor(14, 12) == 2;
    assert NatXor(28, 24) == 4;
  }

  lemma Xor1_57() ensures NatXor(1, 57) == 56 { }

  lemma Xor9_57() ensures NatXor(9, 57) == 48 {
    assert NatXor(1, 7) == 6;
    assert NatXor(2, 14) == 12;
    assert NatXor(4, 28) == 24;
  }

  lemma Xor99_80() ensures NatXor(99, 80) == 51 {
    assert NatXor(1, 1) == 0;
    assert NatXor(3, 2) == 1;
    assert NatXor(6, 5) == 3;
    assert NatXor(12, 10) == 6;
    assert NatXor(24, 20) == 12;
    assert NatXor(49, 40) == 25;
  }

  lemma Xor9_90() ensures NatXor(9, 90) == 83 {
    assert NatXor(1, 11) == 10;
    assert NatXor(2, 22) == 20;
    assert NatXor(4, 45) == 41;
  }

  lemma Xor9_830() ensures NatXor(9, 830) == 823 {
    assert NatXor(1, 103) == 102;
    assert NatXor(2, 207) == 205;
    assert NatXor(4, 415) == 411;
  }

  lemma Xor99_830() ensures NatXor(99, 830) == 861 {
    assert NatXor(1, 12) == 13;
    assert NatXor(3, 25) == 26;
    assert NatXor(6, 51) == 53;
    assert NatXor(12, 103) == 107;
    assert NatXor(24, 207) == 215;
    assert NatXor(49, 415) == 430;
  }

  lemma Xor57_57() ensures NatXor(57, 57) == 0 {
    assert NatXor(1, 1) == 0;
    assert NatXor(3, 3) == 0;
    assert NatXor(7, 7) == 0;
    assert NatXor(14, 14) == 0;
    assert NatXor(28, 28) == 0;
  }

  lemma Xor56_48() ensures NatXor(56, 48) == 8 {
    assert NatXor(1, 1) == 0;
    assert NatXor(3, 3) == 0;
    assert NatXor(7, 6) == 1;
    assert NatXor(14, 12) == 2;
    assert NatXor(28, 24) == 4;
  }

  lemma Xor0_48() ensures NatXor(0, 48) == 48 { }

  lemma Xor8_48() ensures NatXor(8, 48) == 56 {
    assert NatXor(1, 6) == 7;
    assert NatXor(2, 12) == 14;
    assert NatXor(4, 24) == 28;
  }

  lemma Xor57_56() ensures NatXor(57, 56) == 1 {
    assert NatXor(1, 1) == 0;
    assert NatXor(3, 3) == 0;
    assert NatXor(7, 7) == 0;
    assert NatXor(14, 14) == 0;
    assert NatXor(28, 28) == 0;
  }

  lemma Xor1_48() ensures NatXor(1, 48) == 49 { }

  lemma Xor56_56() ensures NatXor(56, 56) == 0 {
    assert NatXor(1, 1) == 0;
    assert NatXor(3, 3) == 0;
    assert NatXor(7, 7) == 0;
    assert NatXor(14, 14) == 0;
    assert NatXor(28, 28) == 0;
  }

  lemma Xor50_48() ensures NatXor(50, 48) == 2 {
    assert NatXor(1, 1) == 0;
    assert NatXor(3, 3) == 0;
    assert NatXor(6, 6) == 0;
    assert NatXor(12, 12) == 0;
    assert NatXor(25, 24) == 1;
  }

  lemma Xor2_48() ensures NatXor(2, 48) == 50 {
    assert NatXor(1, 24) == 25;
  }

  lemma Xor48_48() ensures NatXor(48, 48) == 0 {
    assert NatXor(1, 1) == 0;
    assert NatXor(3, 3) == 0;
    assert NatXor(6, 6) == 0;
    assert NatXor(12, 12) == 0;
    assert NatXor(24, 24) == 0;
  }

  lemma Xor56_8() ensures NatXor(56, 8) == 48 {
    assert NatXor(7, 1) == 6;
    assert NatXor(14, 2) == 12;
    assert NatXor(28, 4) == 24;
  }

  lemma Xor53_49() ensures NatXor(53, 49) == 4 {
    assert NatXor(1, 1) == 0;
    assert NatXor(3, 3) == 0;
    assert NatXor(6, 6) == 0;
    assert NatXor(13, 12) == 1;
    assert NatXor(26, 24) == 2;
  }

  lemma Xor53_48() ensures NatXor(53, 48) == 5 {
    assert NatXor(1, 1) == 0;
    assert NatXor(3, 3) == 0;
    assert NatXor(6, 6) == 0;
    assert NatXor(13, 12) == 1;
    assert NatXor(26, 24) == 2;
  }

  lemma Xor4_48() ensures NatXor(4, 48) == 52 {
    assert NatXor(1, 12) == 13;
    assert NatXor(2, 24) == 26;
  }

  lemma Xor5_48() ensures NatXor(5, 48) == 53 {
    assert NatXor(1, 12) == 13;
    assert NatXor(2, 24) == 26;
  }

  lemma Xor54_48() ensures NatXor(54, 48) == 6 {
    assert NatXor(1, 1) == 0;
    assert NatXor(3, 3) == 0;
    assert NatXor(6, 6) == 0;
    assert NatXor(13, 12) == 1;
    assert NatXor(27, 24) == 3;
  }

  lemma Xor6_48() ensures NatXor(6, 48) == 54 {
    assert NatXor(1, 12) == 13;
    assert NatXor(3, 24) == 27;
  }

  lemma Xor54_49() ensures NatXor(54, 49) == 7 {
    assert NatXor(1, 1) == 0;
    assert NatXor(3, 3) == 0;
    assert NatXor(6, 6) == 0;
    assert NatXor(13, 12) == 1;
    assert NatXor(27, 24) == 3;
  }

  lemma Xor7_48() ensures NatXor(7, 48) == 55 {
    assert NatXor(1, 12) == 13;
    assert NatXor(3, 24) == 27;
  }

  lemma Xor73_56() ensures NatXor(73, 56) == 113 {
    assert NatXor(2, 1) == 3;
    assert NatXor(4, 3) == 7;
    assert NatXor(9, 7) == 14;
    assert NatXor(18, 14) == 28;
    assert NatXor(36, 28) == 56;
  }

  lemma Xor78_54() ensures NatXor(78, 54) == 120 {
    assert NatXor(2, 1) == 3;
    assert NatXor(4, 3) == 7;
    assert NatXor(9, 6) == 15;
    assert NatXor(19, 13) == 30;
    assert NatXor(39, 27) == 60;
  }

  lemma Xor70_52() ensures NatXor(70, 52) == 114 {
    assert NatXor(2, 1) == 3;
    assert NatXor(4, 3) == 7;
    assert NatXor(8, 6) == 14;
    assert NatXor(17, 13) == 28;
    assert NatXor(35, 26) == 57;
  }

  lemma Xor113_50() ensures NatXor(113, 50) == 67 {
    assert NatXor(3, 1) == 2;
    assert NatXor(7, 3) == 4;
    assert NatXor(14, 6) == 8;
    assert NatXor(28, 12) == 16;
    assert NatXor(56, 25) == 33;
  }

  lemma Xor120_48() ensures NatXor(120, 48) == 72 {
    assert NatXor(3, 1) == 2;
    assert NatXor(7, 3) == 4;
    assert NatXor(15, 6) == 9;
    assert NatXor(30, 12) == 18;
    assert NatXor(60, 24) == 36;
  }

  /** The XOR of two strings the shorter of which has two bytes. */
  lemma XorBytes2(a: seq<Byte>, b: seq<Byte>, x: Byte, y: Byte)
    requires |a| >= 2 && |b| >= 2 && (|a| == 2 || |b| == 2)
    requires NatXor(a[0], b[0]) == x && NatXor(a[1], b[1]) == y
    ensures XorBytes(a, b) == [x, y]
  {
  }

  /** The XOR of two strings the shorter of which has three bytes. */
  lemma XorBytes3(a: seq<Byte>, b: seq<Byte>, x: Byte, y: Byte, z: Byte)
    requires |a| >= 3 && |b| >= 3 && (|a| == 3 || |b| == 3)
    requires NatXor(a[0], b[0]) == x && NatXor(a[1], b[1]) == y && NatXor(a[2], b[2]) == z
    ensures XorBytes(a, b) == [x, y, z]
  {
  }

  // ---------------------------------------------------------------------------
  // Decimal strings of two and three digits

  lemma TwoDigits(a: Byte, b: Byte)
    requires IsDigit(a) && IsDigit(b)
    ensures IsDigitString([a, b]) && DecimalValue([a, b]) == 10 * DigitValue(a) + DigitValue(b)
  {
    assert [a, b][..1] == [a] && [a][..0] == [];
    assert DecimalValue([a]) == DigitValue(a);
  }

  lemma ThreeDigits(a: Byte, b: Byte, c: Byte)
    requires IsDigit(a) && IsDigit(b) && IsDigit(c)
    ensures IsDigitString([a, b, c])
    ensures DecimalValue([a, b, c]) == 100 * DigitValue(a) + 10 * DigitValue(b) + DigitValue(c)
  {
    assert [a, b, c][..2] == [a, b];
    TwoDigits(a, b);
  }

  lemma Decimal2(n: nat)
    requires 10 <= n < 100
    ensures DecimalBytes(n) == [DigitByte(n / 10), DigitByte(n % 10)]
  {
  }

  lemma Decimal3(n: nat)
    requires 100 <= n < 1000
    ensures DecimalBytes(n) == [DigitByte(n / 100), DigitByte(n / 10 % 10), DigitByte(n % 10)]
  {
    Decimal2(n / 10);
  }

  /** A digit string XORed with the integer 0 reads as the integer it spells. */
  lemma ReadAsInt(s: seq<Byte>)
    requires IsDigitString(s) && DecimalValue(s) <= PHP_INT_MAX
    ensures XorValues(Str(s), Int(0)) == Some(Int(DecimalValue(s)))
    ensures XorValues(Int(0), Str(s)) == Some(Int(DecimalValue(s)))
  {
  }

  /** The string "0" followed by a digit, which `^ 0` reads as that digit. */
  lemma ZeroDigit(digit: nat)
    requires digit < 10
    ensures XorValues(Str([48, DigitByte(digit)]), Int(0)) == Some(Int(digit))
  {
    TwoDigits(48, DigitByte(digit));
    ReadAsInt([48, DigitByte(digit)]);
  }

  // ---------------------------------------------------------------------------
  // The integer exclusive ors, as PHP values

  lemma IntXor9_9()
    ensures XorValues(Int(9), Int(9)) == Some(Int(0))
  {
    Xor9_9();
  }

  lemma IntXor9_99()
    ensures XorValues(Int(9), Int(99)) == Some(Int(106))
  {
    Xor9_99();
  }

  lemma IntXor9_90()
    ensures XorValues(Int(9), Int(90)) == Some(Int(83))
  {
    Xor9_90();
  }

  lemma IntXor99_80()
    ensures XorValues(Int(99), Int(80)) == Some(Int(51))
  {
    Xor99_80();
  }

  // ---------------------------------------------------------------------------
  // Concatenations of one-digit integers and short strings

  lemma Cat99()
    ensures ToStr(Int(9)) + ToStr(Int(9)) == [57, 57]
  {
  }

  lemma Cat00()
    ensures ToStr(Int(0)) + ToStr(Int(0)) == [48, 48]
  {
  }

  lemma Cat09()
    ensures ToStr(Int(0)) + ToStr(Int(9)) == [48, 57]
  {
  }

  lemma Cat90()
    ensures ToStr(Int(9)) + ToStr(Int(0)) == [57, 48]
  {
  }

  lemma Cat80()
    ensures ToStr(Int(8)) + ToStr(Int(0)) == [56, 48]
  {
  }

  lemma Cat96()
    ensures ToStr(Int(9)) + ToStr(Int(6)) == [57, 54]
  {
  }

  lemma Cat91()
    ensures ToStr(Int(9)) + ToStr(Int(1)) == [57, 49]
  {
  }

  lemma Cat86()
    ensures ToStr(Int(8)) + ToStr(Int(6)) == [56, 54]
  {
  }

  lemma Cat20()
    ensures ToStr(Int(2)) + ToStr(Int(0)) == [50, 48]
  {
  }

  lemma Cat980()
    ensures ToStr(Int(9)) + ToStr(Str([56, 48])) == [57, 56, 48]
  {
  }

  lemma Cat864()
    ensures ToStr(Str([56, 54])) + ToStr(Int(4)) == [56, 54, 52]
  {
  }

  lemma Cat2000()
    ensures ToStr(Str([50, 48])) + ToStr(Str([0, 0])) == [50, 48, 0, 0]
  {
  }

  lemma CatInf9()
    ensures ToStr(Inf) + ToStr(Int(9)) == [73, 78, 70, 57]
  {
  }

  // ---------------------------------------------------------------------------
  // The strings "01" to "08", which `^ 0` reads as one digit

  lemma Read01()
    ensures XorValues(Str([48, 49]), Int(0)) == Some(Int(1))
  {
    ZeroDigit(1);
  }

  lemma Read02()
    ensures XorValues(Str([48, 50]), Int(0)) == Some(Int(2))
  {
    ZeroDigit(2);
  }

  lemma Read03()
    ensures XorValues(Str([48, 51]), Int(0)) == Some(Int(3))
  {
    ZeroDigit(3);
  }

  lemma Read04()
    ensures XorValues(Str([48, 52]), Int(0)) == Some(Int(4))
  {
    ZeroDigit(4);
  }

  lemma Read05()
    ensures XorValues(Str([48, 53]), Int(0)) == Some(Int(5))
  {
    ZeroDigit(5);
  }

  lemma Read06()
    ensures XorValues(Str([48, 54]), Int(0)) == Some(Int(6))
  {
    ZeroDigit(6);
  }

  lemma Read07()
    ensures XorValues(Str([48, 55]), Int(0)) == Some(Int(7))
  {
    ZeroDigit(7);
  }

  lemma Read08()
    ensures XorValues(Str([48, 56]), Int(0)) == Some(Int(8))
  {
    ZeroDigit(8);
  }

  // ---------------------------------------------------------------------------
  // The values each constant passes through on the way to its own, one fact
  // per lemma. They mention no trees, so that the tree lemmas only glue them.

  lemma Cat1069()
    ensures ToStr(Int(106)) + ToStr(Int(9)) == [49, 48, 54, 57]
  {
    Decimal3(106);
  }

  lemma Str80First()
    ensures XorValues(Str([48, 57]), Str([49, 48, 54, 57])) == Some(Str([1, 9]))
  {
    Xor48_49();
    Xor57_48();
    XorBytes2([48, 57], [49, 48, 54, 57], 1, 9);
  }

  lemma Str80Second()
    ensures XorValues(Str([1, 9]), Str([57, 57])) == Some(Str([56, 48]))
  {
    Xor1_57();
    Xor9_57();
    XorBytes2([1, 9], [57, 57], 56, 48);
  }

  lemma Read80()
    ensures XorValues(Str([56, 48]), Int(0)) == Some(Int(80))
  {
    TwoDigits(56, 48);
    ReadAsInt([56, 48]);
  }

  lemma Read90()
    ensures XorValues(Int(0), Str([57, 48])) == Some(Int(90))
  {
    TwoDigits(57, 48);
    ReadAsInt([57, 48]);
  }

  lemma Cat830()
    ensures ToStr(Int(83)) + ToStr(Int(0)) == [56, 51, 48]
  {
    Decimal2(83);
  }

  lemma Read823()
    ensures XorValues(Int(9), Str([56, 51, 48])) == Some(Int(823))
  {
    ThreeDigits(56, 51, 48);
    Xor9_830();
  }

  lemma Read861()
    ensures XorValues(Int(99), Str([56, 51, 48])) == Some(Int(861))
  {
    ThreeDigits(56, 51, 48);
    Xor99_830();
  }

  lemma Int8First()
    ensures XorValues(Str([57, 56, 48]), Str([57, 48])) == Some(Str([0, 8]))
  {
    Xor57_57();
    Xor56_48();
    XorBytes2([57, 56, 48], [57, 48], 0, 8);
  }

  lemma Int8Second()
    ensures XorValues(Str([0, 8]), Str([48, 48])) == Some(Str([48, 56]))
  {
    Xor0_48();
    Xor8_48();
    XorBytes2([0, 8], [48, 48], 48, 56);
  }

  lemma Int1First()
    ensures XorValues(Str([57, 57]), Str([57, 56, 48])) == Some(Str([0, 1]))
  {
    Xor57_57();
    Xor57_56();
    XorBytes2([57, 57], [57, 56, 48], 0, 1);
  }

  lemma Int1Second()
    ensures XorValues(Str([0, 1]), Str([48, 48])) == Some(Str([48, 49]))
  {
    Xor0_48();
    Xor1_48();
    XorBytes2([0, 1], [48, 48], 48, 49);
  }

  lemma Cat8239()
    ensures ToStr(Int(823)) + ToStr(Int(9)) == [56, 50, 51, 57]
  {
    Decimal3(823);
  }

  lemma Int2First()
    ensures XorValues(Str([56, 50, 51, 57]), Str([56, 48])) == Some(Str([0, 2]))
  {
    Xor56_56();
    Xor50_48();
    XorBytes2([56, 50, 51, 57], [56, 48], 0, 2);
  }

  lemma Int2Second()
    ensures XorValues(Str([0, 2]), Str([48, 48])) == Some(Str([48, 50]))
  {
    Xor0_48();
    Xor2_48();
    XorBytes2([0, 2], [48, 48], 48, 50);
  }

  lemma Cat839()
    ensures ToStr(Int(83)) + ToStr(Int(9)) == [56, 51, 57]
  {
    Decimal2(83);
  }

  lemma Int3First()
    ensures XorValues(Str([56, 48]), Str([48, 48])) == Some(Str([8, 0]))
  {
    Xor56_48();
    Xor48_48();
    XorBytes2([56, 48], [48, 48], 8, 0);
  }

  lemma Int3Second()
    ensures XorValues(Str([56, 51, 57]), Str([8, 0])) == Some(Str([48, 51]))
  {
    Xor56_8();
    XorBytes2([56, 51, 57], [8, 0], 48, 51);
  }

  lemma Cat951()
    ensures ToStr(Int(9)) + ToStr(Int(51)) == [57, 53, 49]
  {
    Decimal2(51);
  }

  lemma Cat9106()
    ensures ToStr(Int(9)) + ToStr(Int(106)) == [57, 49, 48, 54]
  {
    Decimal3(106);
  }

  lemma Int4First()
    ensures XorValues(Str([57, 53, 49]), Str([57, 49, 48, 54])) == Some(Str([0, 4, 1]))
  {
    Xor57_57();
    Xor53_49();
    Xor49_48();
    XorBytes3([57, 53, 49], [57, 49, 48, 54], 0, 4, 1);
  }

  lemma Int4Second()
    ensures XorValues(Str([0, 4, 1]), Str([48, 48])) == Some(Str([48, 52]))
  {
    Xor0_48();
    Xor4_48();
    XorBytes2([0, 4, 1], [48, 48], 48, 52);
  }

  lemma Int5First()
    ensures XorValues(Str([57, 53, 49]), Str([57, 48])) == Some(Str([0, 5]))
  {
    Xor57_57();
    Xor53_48();
    XorBytes2([57, 53, 49], [57, 48], 0, 5);
  }

  lemma Int5Second()
    ensures XorValues(Str([0, 5]), Str([48, 48])) == Some(Str([48, 53]))
  {
    Xor0_48();
    Xor5_48();
    XorBytes2([0, 5], [48, 48], 48, 53);
  }

  lemma Cat8619()
    ensures ToStr(Int(861)) + ToStr(Int(9)) == [56, 54, 49, 57]
  {
    Decimal3(861);
  }

  lemma Int6First()
    ensures XorValues(Str([56, 54, 49, 57]), Str([56, 48])) == Some(Str([0, 6]))
  {
    Xor56_56();
    Xor54_48();
    XorBytes2([56, 54, 49, 57], [56, 48], 0, 6);
  }

  lemma Int6Second()
    ensures XorValues(Str([0, 6]), Str([48, 48])) == Some(Str([48, 54]))
  {
    Xor0_48();
    Xor6_48();
    XorBytes2([0, 6], [48, 48], 48, 54);
  }

  lemma Int7First()
    ensures XorValues(Str([57, 54]), Str([57, 49])) == Some(Str([0, 7]))
  {
    Xor57_57();
    Xor54_49();
    XorBytes2([57, 54], [57, 49], 0, 7);
  }

  lemma Int7Second()
    ensures XorValues(Str([0, 7]), Str([48, 48])) == Some(Str([48, 55]))
  {
    Xor0_48();
    Xor7_48();
    XorBytes2([0, 7], [48, 48], 48, 55);
  }

  lemma NullNull()
    ensures XorValues(Str([57, 57]), Str([57, 57])) == Some(Str([0, 0]))
  {
    Xor57_57();
    XorBytes2([57, 57], [57, 57], 0, 0);
  }

  lemma ChrFirst()
    ensures XorValues(Str([73, 78, 70, 57]), Str([56, 54, 52])) == Some(Str([113, 120, 114]))
  {
    Xor73_56();
    Xor78_54();
    Xor70_52();
    XorBytes3([73, 78, 70, 57], [56, 54, 52], 113, 120, 114);
  }

  lemma ChrSecond()
    ensures XorValues(Str([113, 120, 114]), Str([50, 48, 0, 0])) == Some(Str([67, 72, 114]))
  {
    Xor113_50();
    Xor120_48();
    XorBytes3([113, 120, 114], [50, 48, 0, 0], 67, 72, 114);
  }
}
