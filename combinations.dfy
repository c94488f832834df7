/**
 * The basis solver: from a short list of seed characters, every non-empty
 * combination of them and the character its exclusive or produces; for each
 * printable character the shortest such combination; and the built-in
 * function names that can be spelled with those characters.
 */
module Combinations {
  import opened PhpValues

  /** A yielded pair: a character and the seed characters whose exclusive or gives it. */
  type Pair = (Byte, seq<Byte>)

  /** The exclusive or of every character of a non-empty combination. */
  function XorFold(c: seq<Byte>): Byte
    requires |c| > 0
  {
    if |c| == 1 then c[0] else ByteXor(XorFold(c[..|c| - 1]), c[|c| - 1])
  }

  // ---------------------------------------------------------------------------
  // The generator

  /** `combinations($list)`: every pair the generator yields, in order. */
  function Combinations(list: seq<Byte>): (r: seq<Pair>)
    decreases |list|, 1, 0
  {
    Iterations(list, 0)
  }

  /** What iterations i, i + 1, … of the generator's outer loop yield. */
  function Iterations(list: seq<Byte>, i: nat): (r: seq<Pair>)
    requires i <= |list|
    decreases |list|, 0, |list| - i
  {
    if i == |list| then []
    else
      var current := list[i];
      [(current, [current])] + Extend(current, Combinations(list[i + 1..])) + Iterations(list, i + 1)
  }

  /** The inner loop: each pair of the rest, XORed with `current`, which joins its combination last. */
  function Extend(current: Byte, pairs: seq<Pair>): (r: seq<Pair>)
    ensures |r| == |pairs|
    ensures forall k :: 0 <= k < |r| ==> r[k] == (ByteXor(current, pairs[k].0), pairs[k].1 + [current])
  {
    seq(|pairs|, k requires 0 <= k < |pairs| => (ByteXor(current, pairs[k].0), pairs[k].1 + [current]))
  }

  /** Iterations from the second on enumerate exactly as the generator does on the tail. */
  lemma {:induction false} IterationsShift(list: seq<Byte>, i: nat)
    requires 1 <= i <= |list|
    ensures Iterations(list, i) == Iterations(list[1..], i - 1)
    decreases |list| - i
  {
    if i < |list| {
      IterationsShift(list, i + 1);
      assert list[1..][i - 1] == list[i];
      assert list[1..][i..] == list[i + 1..];
    }
  }

  /**
   * The generator on a non-empty list: the first element alone, then the
   * first element appended to every combination of the rest, then the
   * combinations of the rest.
   */
  lemma CombinationsUnfold(list: seq<Byte>)
    requires list != []
    ensures Combinations(list)
         == [(list[0], [list[0]])] + Extend(list[0], Combinations(list[1..])) + Combinations(list[1..])
  {
    IterationsShift(list, 1);
  }

  // ---------------------------------------------------------------------------
  // Which positions of the list each combination takes

  /**
   * The positions behind the generator on the slice `list[lo..hi]`, listed
   * as it lists its combinations: each as the positions it takes, in the
   * order their characters appear in the combination.
   */
  function Positions(lo: nat, hi: nat): seq<seq<nat>>
    decreases hi - lo
  {
    if lo >= hi then []
    else [[lo]] + AppendEach(Positions(lo + 1, hi), lo) + Positions(lo + 1, hi)
  }

  function AppendEach(ps: seq<seq<nat>>, x: nat): (r: seq<seq<nat>>)
    ensures |r| == |ps| && forall k :: 0 <= k < |r| ==> r[k] == ps[k] + [x]
  {
    seq(|ps|, k requires 0 <= k < |ps| => ps[k] + [x])
  }

  /** Strictly decreasing: a set of positions, each listed once, largest first. */
  predicate Descending(p: seq<nat>) {
    forall j, k :: 0 <= j < k < |p| ==> p[j] > p[k]
  }

  predicate InRange(p: seq<nat>, lo: nat, hi: nat) {
    forall j :: 0 <= j < |p| ==> lo <= p[j] < hi
  }

  /** The characters at the given positions, in that order. */
  function Pick(list: seq<Byte>, p: seq<nat>): (r: seq<Byte>)
    requires InRange(p, 0, |list|)
    ensures |r| == |p| && forall j :: 0 <= j < |p| ==> r[j] == list[p[j]]
  {
    seq(|p|, j requires 0 <= j < |p| => list[p[j]])
  }

  /** Every entry is a non-empty, strictly decreasing list of positions in [lo, hi). */
  lemma {:induction false} PositionsShape(lo: nat, hi: nat)
    ensures forall k :: 0 <= k < |Positions(lo, hi)| ==>
      var p := Positions(lo, hi)[k]; |p| > 0 && Descending(p) && InRange(p, lo, hi)
    decreases hi - lo
  {
    if lo < hi {
      PositionsShape(lo + 1, hi);
      var rest := Positions(lo + 1, hi);
      var ext := AppendEach(rest, lo);
      forall k | 0 <= k < |ext|
        ensures Descending(ext[k]) && InRange(ext[k], lo, hi)
      {
        assert ext[k] == rest[k] + [lo];
      }
    }
  }

  /** Every non-empty, strictly decreasing list of positions in [lo, hi) is an entry. */
  lemma {:induction false} PositionsComplete(lo: nat, hi: nat, p: seq<nat>)
    requires |p| > 0 && Descending(p) && InRange(p, lo, hi)
    ensures p in Positions(lo, hi)
    decreases hi - lo
  {
    var rest := Positions(lo + 1, hi);
    if p[|p| - 1] > lo {
      PositionsComplete(lo + 1, hi, p);
    } else if |p| == 1 {
      assert p == [lo];
    } else {
      var init := p[..|p| - 1];
      PositionsComplete(lo + 1, hi, init);
      var k :| 0 <= k < |rest| && rest[k] == init;
      assert AppendEach(rest, lo)[k] == p;
    }
  }

  /** Entry i of the enumeration from lo: `[lo]`, then each later list with lo appended, then the later lists. */
  lemma PositionsAt(lo: nat, hi: nat, i: nat)
    requires lo < hi && i < |Positions(lo, hi)|
    ensures var rest := Positions(lo + 1, hi);
      Positions(lo, hi)[i] == if i == 0 then [lo] else if i <= |rest| then rest[i - 1] + [lo] else rest[i - 1 - |rest|]
  {
  }

  /** No list of positions is enumerated twice. */
  lemma {:induction false} PositionsDistinct(lo: nat, hi: nat)
    ensures forall j, k :: 0 <= j < k < |Positions(lo, hi)| ==> Positions(lo, hi)[j] != Positions(lo, hi)[k]
    decreases hi - lo
  {
    if lo < hi {
      PositionsDistinct(lo + 1, hi);
      PositionsShape(lo + 1, hi);
      var rest := Positions(lo + 1, hi);
      var all := Positions(lo, hi);
      var n := |rest|;
      forall j, k | 0 <= j < k < |all|
        ensures all[j] != all[k]
      {
        PositionsAt(lo, hi, j);
        PositionsAt(lo, hi, k);
        var p, q := all[j], all[k];
        if k <= n {
          // both end in lo; apart from it they are two different later lists
          assert j == 0 || p[..|p| - 1] == rest[j - 1];
          assert q[..|q| - 1] == rest[k - 1];
        } else {
          // q is a later list, all of whose positions exceed lo
          assert q[|q| - 1] > lo;
          assert j > n || p[|p| - 1] == lo;
        }
      }
    }
  }

  /** There are 2^(hi - lo) - 1 entries: one per non-empty subset of the positions. */
  lemma {:induction false} PositionsCount(lo: nat, hi: nat)
    requires lo <= hi
    ensures |Positions(lo, hi)| == Pow2(hi - lo) - 1
    decreases hi - lo
  {
    if lo < hi {
      PositionsCount(lo + 1, hi);
    }
  }

  // ---------------------------------------------------------------------------
  // The generator yields each non-empty subset once, with its XOR

  lemma ByteXorCommutes(a: Byte, b: Byte)
    ensures ByteXor(a, b) == ByteXor(b, a)
  {
    NatXorCommutes(a, b);
  }

  lemma XorFoldSnoc(c: seq<Byte>, x: Byte)
    requires |c| > 0
    ensures XorFold(c + [x]) == ByteXor(XorFold(c), x)
  {
    assert (c + [x])[..|c|] == c;
  }

  lemma SliceStep(list: seq<Byte>, lo: nat)
    requires lo < |list|
    ensures list[lo..] != [] && list[lo..][0] == list[lo] && list[lo..][1..] == list[lo + 1..]
  {
  }

  /**
   * Pair k of `pairs` is the pick of position list k, together with the
   * XOR of the picked characters.
   */
  predicate Matches(list: seq<Byte>, pairs: seq<Pair>, ps: seq<seq<nat>>) {
    |pairs| == |ps| &&
    forall k :: 0 <= k < |pairs| ==>
      InRange(ps[k], 0, |list|) && pairs[k].1 == Pick(list, ps[k]) &&
      |pairs[k].1| > 0 && pairs[k].0 == XorFold(pairs[k].1)
  }

  lemma MatchesConcat(list: seq<Byte>, a: seq<Pair>, pa: seq<seq<nat>>, b: seq<Pair>, pb: seq<seq<nat>>)
    requires Matches(list, a, pa) && Matches(list, b, pb)
    ensures Matches(list, a + b, pa + pb)
  {
    forall k | 0 <= k < |a + b|
      ensures InRange((pa + pb)[k], 0, |list|) && (a + b)[k].1 == Pick(list, (pa + pb)[k])
      ensures |(a + b)[k].1| > 0 && (a + b)[k].0 == XorFold((a + b)[k].1)
    {
      if k >= |a| {
        assert (a + b)[k] == b[k - |a|] && (pa + pb)[k] == pb[k - |a|];
      }
    }
  }

  lemma MatchesExtend(list: seq<Byte>, lo: nat, pairs: seq<Pair>, ps: seq<seq<nat>>)
    requires lo < |list| && Matches(list, pairs, ps)
    ensures Matches(list, Extend(list[lo], pairs), AppendEach(ps, lo))
  {
    var x := list[lo];
    forall k | 0 <= k < |pairs|
      ensures InRange(AppendEach(ps, lo)[k], 0, |list|)
      ensures Extend(x, pairs)[k].1 == Pick(list, AppendEach(ps, lo)[k])
      ensures Extend(x, pairs)[k].0 == XorFold(Extend(x, pairs)[k].1)
    {
      var c := pairs[k];
      XorFoldSnoc(c.1, x);
      ByteXorCommutes(x, c.0);
    }
  }

  /**
   * The k-th yielded pair of the generator on `list[lo..]` is the pick of the
   * k-th list of positions, paired with the XOR of the picked characters.
   */
  lemma {:induction false} CombinationsArePicks(list: seq<Byte>, lo: nat)
    requires lo <= |list|
    ensures Matches(list, Combinations(list[lo..]), Positions(lo, |list|))
    decreases |list| - lo
  {
    if lo == |list| {
      assert list[lo..] == [];
    } else {
      CombinationsArePicks(list, lo + 1);
      SliceStep(list, lo);
      CombinationsUnfold(list[lo..]);
      var x := list[lo];
      var rest := Combinations(list[lo + 1..]);
      var prest := Positions(lo + 1, |list|);
      assert Matches(list, [(x, [x])], [[lo]]);
      MatchesExtend(list, lo, rest, prest);
      MatchesConcat(list, [(x, [x])], [[lo]], Extend(x, rest), AppendEach(prest, lo));
      MatchesConcat(list, [(x, [x])] + Extend(x, rest), [[lo]] + AppendEach(prest, lo), rest, prest);
    }
  }

  /**
   * Each pair the generator yields on `list` pairs a non-empty combination
   * with its exclusive or, and the combination takes the characters at a
   * set of positions of the list, listed from the last position to the first.
   */
  lemma CombinationsSound(list: seq<Byte>, k: nat)
    requires k < |Combinations(list)|
    ensures |Positions(0, |list|)| == |Combinations(list)|
    ensures var c := Combinations(list)[k];
      |c.1| > 0 && c.0 == XorFold(c.1) &&
      var p := Positions(0, |list|)[k];
      Descending(p) && InRange(p, 0, |list|) && c.1 == Pick(list, p)
  {
    assert list[0..] == list;
    CombinationsArePicks(list, 0);
    PositionsShape(0, |list|);
  }

  /** Every non-empty set of positions of the list is yielded, exactly once. */
  lemma CombinationsComplete(list: seq<Byte>, p: seq<nat>)
    requires |p| > 0 && Descending(p) && InRange(p, 0, |list|)
    ensures |Positions(0, |list|)| == |Combinations(list)|
    ensures exists k :: 0 <= k < |Combinations(list)| && Positions(0, |list|)[k] == p &&
                        Combinations(list)[k] == (XorFold(Pick(list, p)), Pick(list, p))
    ensures forall j, k :: 0 <= j < k < |Combinations(list)| ==> Positions(0, |list|)[j] != Positions(0, |list|)[k]
  {
    assert list[0..] == list;
    CombinationsArePicks(list, 0);
    PositionsComplete(0, |list|, p);
    PositionsDistinct(0, |list|);
    var k :| 0 <= k < |Positions(0, |list|)| && Positions(0, |list|)[k] == p;
    assert Combinations(list)[k] == (XorFold(Pick(list, p)), Pick(list, p));
  }

  /** The generator yields 2^n - 1 pairs for n seed characters. */
  lemma CombinationsCount(list: seq<Byte>)
    ensures |Combinations(list)| == Pow2(|list|) - 1
  {
    assert list[0..] == list;
    CombinationsArePicks(list, 0);
    PositionsCount(0, |list|);
  }

  // ---------------------------------------------------------------------------
  // The map from each printable character to its shortest combination

  /** The first character `ord` keeps: control characters below it are skipped. */
  const FIRST_PRINTABLE: Byte := 32

  /**
   * Every stored combination was yielded at the position `at` records, and
   * every earlier pair for the same character has a longer combination.
   */
  ghost predicate Witnessed(pairs: seq<Pair>, m: map<Byte, seq<Byte>>, at: map<Byte, nat>, i: nat) {
    forall c :: c in m ==>
      c >= FIRST_PRINTABLE && c in at && at[c] < i && at[c] < |pairs| && pairs[at[c]] == (c, m[c]) &&
      forall j :: 0 <= j < at[c] && pairs[j].0 == c ==> |pairs[j].1| > |m[c]|
  }

  /** Every printable character among the first i pairs is stored, no longer than its pairs there. */
  predicate Covers(pairs: seq<Pair>, m: map<Byte, seq<Byte>>, i: nat)
    requires i <= |pairs|
  {
    forall k :: 0 <= k < i && pairs[k].0 >= FIRST_PRINTABLE ==> pairs[k].0 in m && |m[pairs[k].0]| <= |pairs[k].1|
  }

  /** A pair that is skipped or not shorter leaves both facts true one step on. */
  lemma KeepStep(pairs: seq<Pair>, m: map<Byte, seq<Byte>>, at: map<Byte, nat>, i: nat)
    requires i < |pairs| && Witnessed(pairs, m, at, i) && Covers(pairs, m, i)
    requires pairs[i].0 < FIRST_PRINTABLE || (pairs[i].0 in m && |m[pairs[i].0]| <= |pairs[i].1|)
    ensures Witnessed(pairs, m, at, i + 1) && Covers(pairs, m, i + 1)
  {
  }

  /** A new character, or a strictly shorter combination, is stored at position i. */
  lemma ReplaceStep(pairs: seq<Pair>, m: map<Byte, seq<Byte>>, at: map<Byte, nat>, i: nat)
    requires i < |pairs| && Witnessed(pairs, m, at, i) && Covers(pairs, m, i)
    requires pairs[i].0 >= FIRST_PRINTABLE && (pairs[i].0 !in m || |m[pairs[i].0]| > |pairs[i].1|)
    ensures Witnessed(pairs, m[pairs[i].0 := pairs[i].1], at[pairs[i].0 := i], i + 1)
    ensures Covers(pairs, m[pairs[i].0 := pairs[i].1], i + 1)
  {
    var c := pairs[i].0;
    var m' := m[c := pairs[i].1];
    forall j | 0 <= j < i && pairs[j].0 == c
      ensures |pairs[j].1| > |m'[c]|
    {
    }
  }

  /**
   * Each stored combination is a yielded pair for its character, and the
   * first one of the shortest length among that character's pairs.
   */
  ghost predicate FirstShortest(pairs: seq<Pair>, m: map<Byte, seq<Byte>>) {
    forall c :: c in m ==>
      exists k :: 0 <= k < |pairs| && pairs[k] == (c, m[c]) &&
        (forall j :: 0 <= j < k && pairs[j].0 == c ==> |pairs[j].1| > |m[c]|)
  }

  lemma WitnessedFirstShortest(pairs: seq<Pair>, m: map<Byte, seq<Byte>>, at: map<Byte, nat>)
    requires Witnessed(pairs, m, at, |pairs|)
    ensures FirstShortest(pairs, m)
  {
    forall c | c in m
      ensures exists k :: 0 <= k < |pairs| && pairs[k] == (c, m[c]) &&
                          (forall j :: 0 <= j < k && pairs[j].0 == c ==> |pairs[j].1| > |m[c]|)
    {
      var k := at[c];
    }
  }

  /** Each stored combination is non-empty and its exclusive or is its key. */
  lemma WitnessedXor(list: seq<Byte>, m: map<Byte, seq<Byte>>, at: map<Byte, nat>)
    requires Witnessed(Combinations(list), m, at, |Combinations(list)|)
    ensures forall c :: c in m ==> c >= FIRST_PRINTABLE && |m[c]| > 0 && XorFold(m[c]) == c
  {
    forall c | c in m
      ensures |m[c]| > 0 && XorFold(m[c]) == c
    {
      CombinationsSound(list, at[c]);
    }
  }

  /**
   * The loop that fills `$combinationsMap`: it skips control characters and
   * keeps, for each character, the first of its shortest combinations.
   */
  method BuildMap(list: seq<Byte>) returns (m: map<Byte, seq<Byte>>)
    ensures forall c :: c in m ==> c >= FIRST_PRINTABLE && |m[c]| > 0 && XorFold(m[c]) == c
    ensures FirstShortest(Combinations(list), m)
    ensures Covers(Combinations(list), m, |Combinations(list)|)
  {
    var pairs := Combinations(list);
    m := map[];
    ghost var at: map<Byte, nat> := map[];
    for i := 0 to |pairs|
      invariant Witnessed(pairs, m, at, i) && Covers(pairs, m, i)
    {
      var (c, combination) := pairs[i];
      if c < FIRST_PRINTABLE {
        KeepStep(pairs, m, at, i);
        continue;
      }
      if c !in m || |m[c]| > |combination| {
        ReplaceStep(pairs, m, at, i);
        m := m[c := combination];
        at := at[c := i];
      } else {
        KeepStep(pairs, m, at, i);
      }
    }
    WitnessedFirstShortest(pairs, m, at);
    WitnessedXor(list, m, at);
  }

  /**
   * For every printable character the map holds, no non-empty set of seed
   * positions whose exclusive or gives it is smaller than the stored one; and
   * every printable character reachable at all is in the map.
   */
  lemma ShortestOverSubsets(list: seq<Byte>, m: map<Byte, seq<Byte>>, p: seq<nat>)
    requires Covers(Combinations(list), m, |Combinations(list)|)
    requires |p| > 0 && Descending(p) && InRange(p, 0, |list|)
    requires XorFold(Pick(list, p)) >= FIRST_PRINTABLE
    ensures XorFold(Pick(list, p)) in m && |m[XorFold(Pick(list, p))]| <= |p|
  {
    CombinationsComplete(list, p);
  }

  // ---------------------------------------------------------------------------
  // ksort

  /**
   * `ksort($combinationsMap)`: the map's entries in increasing order of
   * their one-character keys, each entry once.
   */
  method KSort(m: map<Byte, seq<Byte>>) returns (entries: seq<Pair>)
    ensures forall j, k :: 0 <= j < k < |entries| ==> entries[j].0 < entries[k].0
    ensures forall k :: 0 <= k < |entries| ==> entries[k].0 in m && m[entries[k].0] == entries[k].1
    ensures forall c :: c in m ==> exists k :: 0 <= k < |entries| && entries[k].0 == c
  {
    entries := [];
    for b := 0 to 256
      invariant forall j, k :: 0 <= j < k < |entries| ==> entries[j].0 < entries[k].0
      invariant forall k :: 0 <= k < |entries| ==> entries[k].0 < b && entries[k].0 in m && m[entries[k].0] == entries[k].1
      invariant forall c :: c in m && c < b ==> exists k :: 0 <= k < |entries| && entries[k].0 == c
    {
      if b as Byte in m {
        ghost var before := entries;
        entries := entries + [(b as Byte, m[b as Byte])];
        assert entries[|before|].0 == b as Byte;
        assert forall k :: 0 <= k < |before| ==> entries[k] == before[k];
      }
    }
  }

  // ---------------------------------------------------------------------------
  // Spelling built-in function names

  /** `strtoupper` on one byte: ASCII lower-case letters only. */
  function Upper(c: Byte): (r: Byte)
    ensures 97 <= c <= 122 ==> r as int == c as int - 32
    ensures !(97 <= c <= 122) ==> r == c
  {
    if 97 <= c <= 122 then c - 32 else c
  }

  /** Every character is in the map as it is or in upper case. */
  predicate Spellable(name: seq<Byte>, m: map<Byte, seq<Byte>>) {
    forall i :: 0 <= i < |name| ==> name[i] in m || Upper(name[i]) in m
  }

  /** The character used for `c`: `c` itself when the map has it, its upper case otherwise. */
  function SpellChar(c: Byte, m: map<Byte, seq<Byte>>): (r: Byte)
    ensures Upper(r) == Upper(c)
  {
    if c in m then c else Upper(c)
  }

  /**
   * The inner loop over one function name: the name spelled with available
   * characters, or None as soon as a character is missing in both cases.
   * PHP function names are case-insensitive, so the spelling names the same
   * function.
   */
  method SpellName(func: seq<Byte>, m: map<Byte, seq<Byte>>) returns (name: Option<seq<Byte>>)
    ensures name.Some? <==> Spellable(func, m)
    ensures name.Some? ==> |name.value| == |func|
    ensures name.Some? ==> forall i :: 0 <= i < |func| ==> name.value[i] == SpellChar(func[i], m)
    ensures name.Some? ==> forall i :: 0 <= i < |func| ==>
      name.value[i] in m && Upper(name.value[i]) == Upper(func[i])
  {
    var spelled := [];
    for i := 0 to |func|
      invariant |spelled| == i && Spellable(func[..i], m)
      invariant forall j :: 0 <= j < i ==> spelled[j] == SpellChar(func[j], m)
    {
      var c := func[i];
      if c in m {
        spelled := spelled + [c];
        continue;
      }
      c := Upper(c);
      if c in m {
        spelled := spelled + [c];
        continue;
      }
      assert !Spellable(func, m) by {
        assert !(func[i] in m || Upper(func[i]) in m);
      }
      return None;
    }
    assert func[..|func|] == func;
    return Some(spelled);
  }

  /** The whole name spelled character by character with `SpellChar`. */
  function Spelling(func: seq<Byte>, m: map<Byte, seq<Byte>>): (r: seq<Byte>)
    ensures |r| == |func| && forall i :: 0 <= i < |func| ==> r[i] == SpellChar(func[i], m)
  {
    seq(|func|, i requires 0 <= i < |func| => SpellChar(func[i], m))
  }

  /** The names printed under "found functions", in the order of `functions`. */
  function Found(functions: seq<seq<Byte>>, m: map<Byte, seq<Byte>>): (r: seq<seq<Byte>>)
    ensures |r| <= |functions|
    decreases |functions|
  {
    if functions == [] then []
    else
      var last := functions[|functions| - 1];
      Found(functions[..|functions| - 1], m) + if Spellable(last, m) then [Spelling(last, m)] else []
  }

  /** The outer loop over the internal functions, printing every name it can spell. */
  method FoundFunctions(functions: seq<seq<Byte>>, m: map<Byte, seq<Byte>>) returns (names: seq<seq<Byte>>)
    ensures names == Found(functions, m)
  {
    names := [];
    for k := 0 to |functions|
      invariant names == Found(functions[..k], m)
    {
      var name := SpellName(functions[k], m);
      assert functions[..k + 1][..k] == functions[..k];
      if name.Some? {
        assert name.value == Spelling(functions[k], m);
        names := names + [name.value];
      }
    }
    assert functions[..|functions|] == functions;
  }

  /**
   * Every printed name is the spelling of a spellable internal function: it
   * uses only characters the map holds and, up to case, it is that function's
   * name.
   */
  lemma {:induction false} FoundSound(functions: seq<seq<Byte>>, m: map<Byte, seq<Byte>>, n: seq<Byte>)
    requires n in Found(functions, m)
    ensures exists f :: f in functions && Spellable(f, m) && n == Spelling(f, m)
    ensures forall i :: 0 <= i < |n| ==> n[i] in m
    decreases |functions|
  {
    var init := functions[..|functions| - 1];
    var last := functions[|functions| - 1];
    if n in Found(init, m) {
      FoundSound(init, m, n);
      var f :| f in init && Spellable(f, m) && n == Spelling(f, m);
      assert f in functions;
    } else {
      assert Spellable(last, m) && n == Spelling(last, m);
      assert last in functions;
    }
  }

  /** Every internal function whose name can be spelled is printed. */
  lemma {:induction false} FoundComplete(functions: seq<seq<Byte>>, m: map<Byte, seq<Byte>>, f: seq<Byte>)
    requires f in functions && Spellable(f, m)
    ensures Spelling(f, m) in Found(functions, m)
    decreases |functions|
  {
    var init := functions[..|functions| - 1];
    if f != functions[|functions| - 1] {
      assert f in init by {
        var k :| 0 <= k < |functions| && functions[k] == f;
        assert init[k] == f;
      }
      FoundComplete(init, m, f);
    }
  }

  // ---------------------------------------------------------------------------
  // The whole script

  /** Some entry of the sorted table is for character `c`. */
  predicate HasKey(entries: seq<Pair>, c: Byte) {
    exists j :: 0 <= j < |entries| && entries[j].0 == c
  }

  /**
   * The script from the seed characters and the list of internal functions:
   * the map `m` it builds (returned for the contract only), the sorted table
   * of its entries, and the function names its characters can spell.
   */
  method Basis(list: seq<Byte>, functions: seq<seq<Byte>>) returns (entries: seq<Pair>, names: seq<seq<Byte>>, ghost m: map<Byte, seq<Byte>>)
    ensures forall c :: c in m ==> c >= FIRST_PRINTABLE && |m[c]| > 0 && XorFold(m[c]) == c
    ensures FirstShortest(Combinations(list), m)
    ensures Covers(Combinations(list), m, |Combinations(list)|)
    ensures forall j, k :: 0 <= j < k < |entries| ==> entries[j].0 < entries[k].0
    ensures forall k :: 0 <= k < |entries| ==> entries[k].0 in m && m[entries[k].0] == entries[k].1
    ensures forall c :: c in m <==> HasKey(entries, c)
    ensures names == Found(functions, m)
    ensures forall f :: f in functions && Spellable(f, m) ==> Spelling(f, m) in names
    ensures forall k, i :: 0 <= k < |names| && 0 <= i < |names[k]| ==> HasKey(entries, names[k][i])
  {
    var built := BuildMap(list);
    m := built;
    entries := KSort(built);
    names := FoundFunctions(functions, built);
    forall f | f in functions && Spellable(f, m)
      ensures Spelling(f, m) in names
    {
      FoundComplete(functions, m, f);
    }
    forall k, i | 0 <= k < |names| && 0 <= i < |names[k]|
      ensures HasKey(entries, names[k][i])
    {
      assert names[k] in Found(functions, m);
      FoundSound(functions, m, names[k]);
      assert names[k][i] in m;
    }
  }
}
