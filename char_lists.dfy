/** Ordered character ranges: `char_range` and `quick_char_list` (SelectionDataSimulation.py:9-27). */
module CharLists {
  import opened Wrappers

  /** A code point as Python's `ord` returns it and `chr` accepts it (surrogates included). */
  type CodePoint = n: int | 0 <= n < 0x11_0000

  const ORD_A: CodePoint := 65  // ord('A')
  const ORD_Z: CodePoint := 90  // ord('Z')

  /** The exception `chr` raises for an argument outside 0..0x10FFFF. */
  datatype Error = ValueError

  function Min(a: int, b: int): int { if a <= b then a else b }

  function Max(a: int, b: int): int { if a <= b then b else a }

  function Abs(a: int): nat { if a < 0 then -a else a }

  /** The code points lo, lo + 1, ..., hi in ascending order, empty when hi < lo: what `range(lo, hi + 1)` yields. */
  function Span(lo: CodePoint, hi: int): (r: seq<CodePoint>)
    requires hi < 0x11_0000
    ensures |r| == if hi < lo then 0 else hi - lo + 1
    ensures forall i :: 0 <= i < |r| ==> r[i] == lo + i
    decreases hi - lo
  {
    if hi < lo then [] else Span(lo, hi - 1) + [hi as CodePoint]
  }

  /** The value of `char_range(c1, c2)`, which the loop in CharRange computes; QuickCharList, a function, uses this form. */
  function CharRangeOf(c1: CodePoint, c2: CodePoint): seq<CodePoint>
  {
    Span(Min(c1, c2) as CodePoint, Max(c1, c2))
  }

  /**
   * `char_range` as the source writes it, an append loop: every code point between the two arguments,
   * inclusive, ascending, whatever their order. Its result is CharRangeOf, the same list as a value.
   */
  method CharRange(c1: CodePoint, c2: CodePoint) returns (cList: seq<CodePoint>)
    ensures |cList| == Abs(c1 - c2) + 1
    ensures forall i :: 0 <= i < |cList| ==> cList[i] == Min(c1, c2) + i
    ensures cList == CharRangeOf(c1, c2) == CharRangeOf(c2, c1)
  {
    cList := [];
    var cMin: CodePoint := Min(c1, c2);
    var cMax: CodePoint := Max(c1, c2);
    for c := cMin to cMax + 1
      invariant cList == Span(cMin, c - 1)
    {
      cList := cList + [c as CodePoint];
    }
  }

  /**
   * `quick_char_list(x)`: `char_range('A', chr(ord('A') + x - 1))`. For x >= 1 these are the x
   * consecutive code points from 'A'; for x <= 0 the range is swapped and runs from chr(64 + x) up to 'A';
   * an end point outside chr's domain is chr's ValueError.
   */
  function QuickCharList(x: int): (r: Result<seq<CodePoint>, Error>)
    ensures r.Ok? <==> 0 <= ORD_A + x - 1 < 0x11_0000
    ensures r.Ok? && x >= 1 ==> |r.value| == x && forall i :: 0 <= i < x ==> r.value[i] == ORD_A + i
    ensures r.Ok? && x < 1 ==> |r.value| == 2 - x && forall i :: 0 <= i < |r.value| ==> r.value[i] == ORD_A + x - 1 + i
  {
    var cEnd := ORD_A + x - 1;
    if 0 <= cEnd < 0x11_0000 then Ok(CharRangeOf(ORD_A, cEnd as CodePoint)) else Err(ValueError)
  }

  /** For 1 <= x <= 26 the list is the first x upper-case letters, without duplicates, the last being chr(64 + x). */
  lemma QuickCharListLetters(x: int)
    requires 1 <= x <= 26
    ensures QuickCharList(x).Ok?
    ensures var cs := QuickCharList(x).value;
      |cs| == x && cs[0] == ORD_A && cs[x - 1] == ORD_A + x - 1
      && (forall i :: 0 <= i < x ==> ORD_A <= cs[i] <= ORD_Z)
      && (forall i, j :: 0 <= i < j < x ==> cs[i] != cs[j])
  {
  }

  /** The unchecked edge case: x = 0 yields ['@', 'A'] through the swap in char_range. */
  lemma QuickCharListZero()
    ensures QuickCharList(0) == Ok([64, 65])
  {
    var cs := QuickCharList(0).value;
    assert |cs| == 2 && cs[0] == 64 && cs[1] == 65;
    assert cs == [64, 65];
  }

  /** Past 'Z' nothing fails: x = 27 yields 'A'..'Z' followed by '[' (code point 91). */
  lemma QuickCharListPastZ()
    ensures QuickCharList(27).Ok?
    ensures |QuickCharList(27).value| == 27 && QuickCharList(27).value[26] == ORD_Z + 1
  {
  }
}
