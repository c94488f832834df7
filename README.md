# PhpFk in Dafny

PhpFk turns a PHP program into one PHP expression written only with the five
characters `9 ( ) . ^`. When that expression is evaluated, it runs the original
program. This project models two parts of it and proves properties of the model.

**The encoder (`src/PhpFk.php`)**
- It has a table of constants: an expression for each digit 0–9, and
  `STR_CHR`, an expression whose value is the string `CHr`. PHP looks up
  function names case-insensitively, so calling `CHr` calls `chr`.
- `obfuscatePositiveInteger` encodes a non-negative integer.
- `obfuscateString` encodes a byte string.
- `obfuscateCode` wraps the encoded program in a fixed template.

**The basis solver (`bin/combinations.php`)**
- It enumerates the combinations of some seed characters and XORs each one.
- For every printable character it keeps the shortest combination.
- It sorts the table by character.
- It lists the built-in function names that can be spelled with the
  characters found.

The encoder is pure text generation, so it is modelled with functions and
lemmas:

- **PHP values.** `PhpValues` defines the values an encoded expression can
  have: integers, byte strings, and `INF`. It also defines the three operator
  rules the encoder relies on:
  - `.` writes an integer in decimal;
  - `^` on two strings XORs them byte by byte, up to the shorter length;
  - `^` with an integer operand reads a digit string as an integer.

  Integer XOR is defined bit by bit on naturals.
- **Expressions.** `PhpExpr` has parse trees over the five characters, their
  text (`Render`) and their value (`Eval`).
- **Parsing.** `PhpParse` reads text back as PHP reads it: `.` binds tighter
  than `^`, both group to the left, and a run of nines is one literal. It
  proves that the text of every well-formed tree parses back to that tree.
- **The constant table.** `PhpTable` holds the table's texts, built exactly as
  the source concatenates them, and one tree per constant.
  - `TableRender` proves that each tree renders to its constant's text.
  - `TableParse` proves that each tree is well formed.
  - `TableEval` proves what each tree evaluates to, with the help of the
    concrete arithmetic in `TableArith`.
- **The encoder.** `PhpFk` defines it, and proves that the text produced for
  `n` evaluates to `n`, and the text produced for a non-empty string evaluates
  to that string.

The solver mixes styles. The generator is a function that returns the
sequence of pairs it yields. The map loop, `ksort` and the name speller are
methods with loop invariants, proved against declarative postconditions.

Three facts about the code shape the model:

- The generator recurses on the first position. It does not enumerate subsets
  by increasing size, and ties between equally short combinations go to the
  one it yields first.
- The speller keeps a character as written when the map has it, and otherwise
  tries `strtoupper` of it. It does not prefer the lower-case spelling.
- The encoder's output uses only `9 ( ) . ^`. The allowed-character pattern in
  `tests/PhpFkTest.php:11` lists a different set.

## Model

| member | source | states |
|---|---|---|
| `PhpValues.Chr` | src/PhpFk.php:56 | definition of `chr`: the one-byte string of n modulo 256; used by `EvalCallOf` and `EvalByteTree` |
| `PhpValues.DecimalRoundTrip` | src/PhpFk.php:80 | reading back the decimal digits of n (`str_split("$nb")`) gives n |
| `PhpValues.PhpIntXor` | src/PhpFk.php:28-43 | the XOR of two PHP integers is again a PHP integer (at most PHP_INT_MAX) |
| `PhpValues.NatXorCommutes` | bin/combinations.php:11 | integer XOR is commutative |
| `PhpValues.ChrOfByte` | src/PhpFk.php:56 | helper step: `chr` of a byte value gives the one-byte string holding that byte |
| `PhpExpr.RenderInAlphabet` | src/PhpFk.php:23-48 | the text of every expression tree uses only `9 ( ) . ^` |
| `PhpExpr.NinesAtIntMax` | src/PhpFk.php:26 | a literal of 18 nines fits PHP_INT_MAX and one of 19 does not |
| `PhpExpr.LiteralKinds` | src/PhpFk.php:46 | a literal of k nines is an integer exactly when 1 <= k <= 18, with value 99…9; from 309 nines on it is INF |
| `PhpExpr.EvalIntInRange` | src/PhpFk.php:28-43 | every integer an expression evaluates to is at most PHP_INT_MAX |
| `PhpParse.ParseRoundTrip` | src/PhpFk.php:23-48 | PHP's reading of the text of a well-formed tree (`.` over `^`, both left-grouped) gives back the tree |
| `PhpParse.ParseXorOf` | src/PhpFk.php:28-43 | a chain `o ^ … ^ o` is read up to where it ends, whatever follows it |
| `PhpParse.ParseConcatOf` | src/PhpFk.php:25-27 | a chain `p . … . p` of parenthesised parts is read up to where it ends |
| `PhpParse.ParsePrimaryOf` | src/PhpFk.php:12 | a parenthesised expression, or a call `(f)(x)`, is read as one part |
| `PhpParse.NinesRunOf` | src/PhpFk.php:46 | a run of k nines is read as one literal of k nines |
| `TableRender.RenderSmallConstants` | src/PhpFk.php:23-28 | the trees of INT_9, INT_0, STR_99, INT_99, STR_00 and INT_106 render to those constants' texts |
| `TableRender.RenderStr80` | src/PhpFk.php:29 | STR_80's tree renders to STR_80's text |
| `TableRender.RenderInt80` | src/PhpFk.php:30-35 | the trees of INT_80, STR_980 and INT_51 render to their texts |
| `TableRender.RenderInt83` | src/PhpFk.php:31 | INT_83's tree renders to INT_83's text |
| `TableRender.RenderInt823` | src/PhpFk.php:32-33 | the trees of INT_823 and INT_861 render to their texts |
| `TableRender.RenderInt8` | src/PhpFk.php:36 | INT_8's tree renders to INT_8's text |
| `TableRender.RenderInt1` | src/PhpFk.php:37 | INT_1's tree renders to INT_1's text |
| `TableRender.RenderInt2` | src/PhpFk.php:38 | INT_2's tree renders to INT_2's text |
| `TableRender.RenderInt3` | src/PhpFk.php:39 | INT_3's tree renders to INT_3's text |
| `TableRender.RenderInt4` | src/PhpFk.php:40-41 | the trees of INT_4 and INT_5 render to their texts |
| `TableRender.RenderInt6` | src/PhpFk.php:42 | INT_6's tree renders to INT_6's text |
| `TableRender.RenderInt7` | src/PhpFk.php:43 | INT_7's tree renders to INT_7's text |
| `TableRender.RenderStrInf9` | src/PhpFk.php:46 | STR_INF9's tree (309 nines, then 9) renders to STR_INF9's text |
| `TableRender.RenderStrNullNull` | src/PhpFk.php:47 | STR_NULL_NULL's tree renders to its text |
| `TableRender.RenderStrChr` | src/PhpFk.php:48 | STR_CHR's tree renders to STR_CHR's text |
| `TableRender.RenderDigitTree` | src/PhpFk.php:66-76 | the tree for digit d renders to the constant the `match` returns for d |
| `TableParse.DigitTreeWellFormed` | src/PhpFk.php:23-43 | every digit constant's tree is well formed, so PHP reads its text back as that tree |
| `TableParse.StrChrWellFormed` | src/PhpFk.php:46-48 | STR_CHR's tree is a parenthesised well-formed expression |
| `TableEval.EvalNines` | src/PhpFk.php:23-26 | the literals 9 and 99, and the constants INT_9 and INT_99, evaluate to the integers 9 and 99 |
| `TableEval.EvalInt0` | src/PhpFk.php:24 | INT_0 evaluates to 0 |
| `TableEval.EvalStr99` | src/PhpFk.php:25 | STR_99 evaluates to the string "99" |
| `TableEval.EvalStr00` | src/PhpFk.php:27 | STR_00 evaluates to the string "00" |
| `TableEval.EvalInt106` | src/PhpFk.php:28 | INT_106 evaluates to 106 |
| `TableEval.EvalStr80` | src/PhpFk.php:29 | STR_80 evaluates to the string "80" |
| `TableEval.EvalInt80` | src/PhpFk.php:30 | INT_80 evaluates to 80 |
| `TableEval.EvalInt83` | src/PhpFk.php:31 | INT_83 evaluates to 83 |
| `TableEval.EvalInt823` | src/PhpFk.php:32-33 | INT_823 evaluates to 823 and INT_861 to 861 |
| `TableEval.EvalStr980` | src/PhpFk.php:34 | STR_980 evaluates to the string "980" |
| `TableEval.EvalInt51` | src/PhpFk.php:35 | INT_51 evaluates to 51 |
| `TableEval.EvalInt8` | src/PhpFk.php:36 | INT_8 evaluates to 8 |
| `TableEval.EvalInt1` | src/PhpFk.php:37 | INT_1 evaluates to 1 |
| `TableEval.EvalInt2` | src/PhpFk.php:38 | INT_2 evaluates to 2 |
| `TableEval.EvalInt3` | src/PhpFk.php:39 | INT_3 evaluates to 3 |
| `TableEval.EvalInt4` | src/PhpFk.php:40 | INT_4 evaluates to 4 |
| `TableEval.EvalInt5` | src/PhpFk.php:41 | INT_5 evaluates to 5 |
| `TableEval.EvalInt6` | src/PhpFk.php:42 | INT_6 evaluates to 6 |
| `TableEval.EvalInt7` | src/PhpFk.php:43 | INT_7 evaluates to 7 |
| `TableEval.EvalDigitTree` | src/PhpFk.php:66-76 | the constant the `match` returns for digit d evaluates to d |
| `TableEval.EvalStrInf9` | src/PhpFk.php:46 | STR_INF9 evaluates to the string "INF9" |
| `TableEval.EvalStrNullNull` | src/PhpFk.php:47 | STR_NULL_NULL evaluates to two zero bytes |
| `TableEval.EvalStrChr` | src/PhpFk.php:48 | STR_CHR evaluates to "CHr", which names `chr` in PHP's case-insensitive lookup |
| `PhpFk.ObfuscatePositiveInteger` | src/PhpFk.php:62-84 | definition of `obfuscatePositiveInteger`: the table entry for a digit, otherwise each decimal digit's encoding in parentheses, joined by `.`, then `^ INT_0`; its properties are proved in `PiecesAreTableEntries`, `RenderIntegerTree`, `EvalIntegerTree`, `IntegerTextValue` and `IntegerInAlphabet` |
| `PhpFk.DigitPieces` | src/PhpFk.php:80 | definition: the table entries of a string of digits, in order; used by `PiecesAreTableEntries` |
| `PhpFk.ObfuscateByte` | src/PhpFk.php:56 | definition of the `array_map` callback: STR_CHR followed by the byte's integer encoding; its properties are proved in `RenderByteTree` and `EvalByteTree` |
| `PhpFk.MapBytes` | src/PhpFk.php:55-57 | definition of `array_map` over `str_split`: the callback applied to each byte, in order |
| `PhpFk.ObfuscateString` | src/PhpFk.php:51-60 | definition of `obfuscateString`: empty for the empty string, otherwise the bytes' encodings joined by `.`; its properties are proved in `EncodingEmpty`, `RenderStringTree`, `EvalStringTree`, `StringTextValue`, `StringInjective`, `ObfuscateStringAppend` and `StringInAlphabet` |
| `PhpFk.PiecesAreTableEntries` | src/PhpFk.php:78-82 | for n >= 10 the output is `((` + the table constants of n's decimal digits, most significant first, joined by `).(` + `)^` + INT_0 + `)`, so the recursion is one level deep |
| `PhpFk.RenderDigitInteger` | src/PhpFk.php:66-76 | for a digit, the encoder's tree is the table entry and renders to the returned text |
| `PhpFk.EvalDigitInteger` | src/PhpFk.php:66-76 | the encoding of a digit evaluates to that digit |
| `PhpFk.RenderIntegerTree` | src/PhpFk.php:62-84 | the tree of n renders to exactly the text `obfuscatePositiveInteger(n)` returns |
| `PhpFk.EvalIntegerTree` | src/PhpFk.php:62-84 | the tree of n evaluates to n for every PHP integer n: the digit strings are concatenated and read back by `^ 0` |
| `PhpFk.IntegerTreeWellFormed` | src/PhpFk.php:78-82 | the tree of every integer encoding is well formed |
| `PhpFk.IntegerTextValue` | src/PhpFk.php:62-84 | the text returned for n parses to n's tree and evaluates to n |
| `PhpFk.JoinParens` | src/PhpFk.php:79-80 | joining with `).(` inside one pair of parentheses parenthesises every piece |
| `PhpFk.RenderChain` | src/PhpFk.php:53-54 | a left-grouped `.` chain renders to its parts' texts joined by `.` |
| `PhpFk.EvalChain` | src/PhpFk.php:53-54 | a `.` chain of parts whose values are single bytes evaluates to the string of those bytes |
| `PhpFk.RenderCallOf` | src/PhpFk.php:56 | helper step: the text of a call is the callee's text followed by the parenthesised argument |
| `PhpFk.EvalCallOf` | src/PhpFk.php:56 | helper step: calling a string that names `chr` on an integer gives `chr` of that integer |
| `PhpFk.RenderByteTree` | src/PhpFk.php:56 | the tree of a byte renders to STR_CHR followed by the byte's integer encoding |
| `PhpFk.EvalByteTree` | src/PhpFk.php:56 | the encoding of a byte evaluates to the one-byte string holding it |
| `PhpFk.RenderStringTree` | src/PhpFk.php:51-60 | the tree of a non-empty string renders to exactly the text `obfuscateString` returns |
| `PhpFk.EvalStringTree` | src/PhpFk.php:51-60 | the tree of a non-empty string evaluates to that string |
| `PhpFk.StringTreeWellFormed` | src/PhpFk.php:53-58 | the tree of every non-empty string encoding is well formed |
| `PhpFk.StringTextValue` | src/PhpFk.php:51-60 | the text returned for a non-empty string parses to its tree and evaluates to that string |
| `PhpFk.StrChrTextValue` | src/PhpFk.php:48 | STR_CHR's text, read and evaluated, is "CHr", a name of `chr` |
| `PhpFk.ObfuscateEmptyString` | src/PhpFk.php:53 | helper step: the empty string is encoded as the empty text |
| `PhpFk.EncodingEmpty` | src/PhpFk.php:53 | the encoding is empty exactly when the string is |
| `PhpFk.StringInjective` | src/PhpFk.php:51-60 | different strings have different encodings |
| `PhpFk.JoinAppend` | src/PhpFk.php:53 | joining two non-empty lists joins their joins with the separator between |
| `PhpFk.ObfuscateStringAppend` | src/PhpFk.php:51-60 | the encoding of s + t is the encoding of s, `.`, and the encoding of t: the output follows the input's byte order |
| `PhpFk.ObfuscateOneByte` | src/PhpFk.php:56 | helper step: a one-byte string is encoded as STR_CHR followed by the byte's integer encoding |
| `PhpFk.IntegerInAlphabet` | src/PhpFk.php:62-84 | every integer encoding uses only `9 ( ) . ^` |
| `PhpFk.StringInAlphabet` | src/PhpFk.php:51-60 | every string encoding uses only `9 ( ) . ^` |
| `PhpFk.TextBytes` | src/PhpFk.php:7-18 | definition: the bytes of a fixed ASCII text of the wrapper, one per character |
| `PhpFk.Template` | src/PhpFk.php:12 | definition of the `sprintf` format: the four slots and the three encoded names in their places; its properties are proved in `TemplateFrame` and `TemplateInAlphabet` |
| `PhpFk.ObfuscateCode` | src/PhpFk.php:5-20 | definition of `obfuscateCode`: the template filled with the encodings of the fixed texts and of the code; its properties are proved in `CodeFrame`, `CodeInAlphabet` and `CodeInjective` |
| `PhpFk.TemplateFrame` | src/PhpFk.php:12 | the template puts the code slot between a prefix and a suffix that do not depend on the code |
| `PhpFk.CodeFrame` | src/PhpFk.php:11-19 | the output of `obfuscateCode` is a fixed prefix, the encoding of the code, and a fixed suffix |
| `PhpFk.TemplateInAlphabet` | src/PhpFk.php:12 | the template adds only `( ) .` to its slots |
| `PhpFk.CodeInAlphabet` | src/PhpFk.php:5-20 | every program `obfuscateCode` produces uses only `9 ( ) . ^` |
| `PhpFk.CodeInjective` | src/PhpFk.php:5-20 | different code gives different programs |
| `Combinations.Combinations` | bin/combinations.php:5-15 | definition of the generator `combinations`: the sequence of pairs it yields; its properties are proved in `CombinationsUnfold`, `CombinationsArePicks`, `CombinationsSound`, `CombinationsComplete` and `CombinationsCount` |
| `Combinations.Iterations` | bin/combinations.php:7-14 | definition of the generator's outer loop from position i on; used by `IterationsShift` |
| `Combinations.Extend` | bin/combinations.php:10-13 | definition of the inner loop: each pair of the rest XORed with the current character, which goes last in the combination |
| `Combinations.AppendEach` | bin/combinations.php:10-13 | definition: a position appended to each list of positions, as the inner loop appends the current character |
| `Combinations.Pick` | bin/combinations.php:12 | definition: the characters at a list of positions, in that order |
| `Combinations.IterationsShift` | bin/combinations.php:7-13 | the outer loop from position i on yields what the generator yields on the list from i on |
| `Combinations.CombinationsUnfold` | bin/combinations.php:7-13 | the generator yields the first character alone, then the first character with each combination of the rest, then the combinations of the rest |
| `Combinations.PositionsShape` | bin/combinations.php:7-13 | every enumerated list of positions is non-empty, strictly decreasing and within range |
| `Combinations.PositionsComplete` | bin/combinations.php:7-13 | every non-empty set of positions is enumerated |
| `Combinations.PositionsDistinct` | bin/combinations.php:7-13 | no set of positions is enumerated twice |
| `Combinations.PositionsCount` | bin/combinations.php:7-13 | there are 2^n - 1 enumerated sets of positions |
| `Combinations.CombinationsArePicks` | bin/combinations.php:5-15 | the k-th yielded pair is the characters at the k-th set of positions, paired with their XOR |
| `Combinations.CombinationsSound` | bin/combinations.php:9-12 | every yielded character is the XOR fold of its combination, which takes each position at most once, the current one last |
| `Combinations.CombinationsComplete` | bin/combinations.php:5-15 | every non-empty set of positions is yielded, with the XOR of its characters, exactly once |
| `Combinations.CombinationsCount` | bin/combinations.php:5-15 | the generator yields 2^n - 1 pairs for n seed characters |
| `Combinations.KeepStep` | bin/combinations.php:19-20 | a skipped control character, or a combination no shorter than the stored one, keeps the loop invariants |
| `Combinations.ReplaceStep` | bin/combinations.php:20-21 | storing a new character or a strictly shorter combination keeps the loop invariants |
| `Combinations.BuildMap` | bin/combinations.php:17-22 | the map has no key below 32; each value is non-empty and XORs to its key; it is the first yielded among the shortest for that key; every yielded character of code >= 32 is a key, with a value no longer than any of its combinations |
| `Combinations.ShortestOverSubsets` | bin/combinations.php:17-22 | for every non-empty set of seed positions whose XOR is printable, the map holds that character with a combination no longer than the set |
| `Combinations.KSort` | bin/combinations.php:24 | the entries in strictly increasing order of their keys, each entry of the map once and nothing else |
| `Combinations.Upper` | bin/combinations.php:39 | definition of `strtoupper` on one byte: `a`–`z` become `A`–`Z`, every other byte is kept |
| `Combinations.SpellChar` | bin/combinations.php:34-43 | definition of one step of the speller: the character if the map has it, otherwise its upper case; its result is the same letter up to case |
| `Combinations.Spelling` | bin/combinations.php:32-45 | definition: the whole name spelled with `SpellChar`; `SpellName` is proved against it |
| `Combinations.SpellName` | bin/combinations.php:32-45 | a name is spelled exactly when each character, or its upper case, is in the map; the spelling keeps the length, uses the character if present and its upper case otherwise, and names the same function up to case |
| `Combinations.Found` | bin/combinations.php:31-46 | definition of the names printed under "found functions": the spellings of the spellable functions, in order, at most one per function; its properties are proved in `FoundSound` and `FoundComplete` |
| `Combinations.FoundFunctions` | bin/combinations.php:30-47 | the names printed, in order, are the spellings of the spellable functions |
| `Combinations.FoundSound` | bin/combinations.php:31-46 | every printed name is the spelling of a spellable function and uses only characters in the map |
| `Combinations.FoundComplete` | bin/combinations.php:31-46 | every function whose name can be spelled is printed |
| `Combinations.Basis` | bin/combinations.php:3-47 | the script: the map it builds has no key below 32, each value XORs to its key, is the first yielded among the shortest and covers every printable yielded character; the sorted table is exactly that map's entries in increasing order; the printed names are exactly the spellings of the spellable functions, in order, and use only characters of the table |

## Left out

- Calling a string as a function is modelled only for `chr`, named in any
  letter case. The wrapper's `json_decode`, `json_encode`, `array_map` with
  spread arguments, `call_user_func`, `FFI::cdef` and `zend_eval_string`
  (src/PhpFk.php:12-14) are foreign calls. So the model proves the shape and
  alphabet of the wrapper's text, not that running it runs the code.
- Finite floats are not modelled. A literal of 19 to 308 nines evaluates to
  nothing in the model. The 309-nine literal in STR_INF9 is modelled as the
  value INF, whose string is "INF". The encoder uses no other float.
- Numeric strings other than plain decimal digits are not modelled: leading
  spaces, signs, exponents, and leading-numeric strings with warnings. `^`
  next to an integer gives a value only for an integer or a digit string that
  fits PHP_INT_MAX. The encoder produces no other case.
- `PhpFk.TextBytes` reduces each character code modulo 256. The fixed texts of
  the wrapper are ASCII, so this changes nothing there.
- `obfuscatePositiveInteger`'s `assert($nb >= 0)` is expressed by the type
  `nat`. Negative input cannot be written.
- `$argv`, `get_defined_functions()` and every `echo` in
  bin/combinations.php (lines 3, 25-27, 29-30, 46, 48) are host input and
  output. The seed list and the function names are parameters. The sorted
  table is returned, not printed.
- The generator is modelled as the sequence of pairs it yields, not as a lazy
  PHP generator.
- `ksort` is modelled by its result: the entries in increasing key order. PHP's
  sorting algorithm is not modelled.
  - PHP turns the digit keys "0"–"9" into integer keys. For one-character
    keys the order still matches byte order, so keys are modelled as bytes.
- `strtoupper` is modelled as ASCII upper-casing. This is what PHP 8.2 and
  later do regardless of locale.
- The PHPUnit tests and their `eval` calls are not part of this model.
