/** Natural numbers as bit strings, and the Hamming distance of app/dedup/simhash.py. */
module Bits {

  function Pow2(n: nat): (r: nat)
    ensures r >= 1
  {
    if n == 0 then 1 else 2 * Pow2(n - 1)
  }

  /** Bit i of a number, as the source's `(n >> i) & 1`. */
  function Bit(n: nat, i: nat): bool {
    if i == 0 then n % 2 == 1 else Bit(n / 2, i - 1)
  }

  /** Bitwise exclusive or. */
  function Xor(a: nat, b: nat): nat
    decreases a + b
  {
    if a == 0 && b == 0 then 0
    else (if a % 2 != b % 2 then 1 else 0) + 2 * Xor(a / 2, b / 2)
  }

  /** The binary numeral of a number, as Python's `bin` writes it after the prefix. */
  function Numeral(n: nat): string {
    (if n < 2 then "" else Numeral(n / 2)) + (if n % 2 == 1 then "1" else "0")
  }

  /** Occurrences of a character, as `str.count` of a one-character string. */
  function Count(s: string, c: char): nat {
    if s == "" then 0 else (if s[0] == c then 1 else 0) + Count(s[1..], c)
  }

  function HammingDistance(a: nat, b: nat): nat {
    Count(Numeral(Xor(a, b)), '1')
  }

  /** The positions below `width` at which two numbers differ. */
  ghost function Differences(a: nat, b: nat, width: nat): set<nat> {
    set i: nat | i < width && Bit(a, i) != Bit(b, i)
  }

  ghost function SetBits(n: nat, width: nat): set<nat> {
    set i: nat | i < width && Bit(n, i)
  }

  // ---- the numeral counts the set bits ----

  /** Number of set bits below `width`. */
  function Ones(n: nat, width: nat): nat {
    if width == 0 then 0 else (if n % 2 == 1 then 1 else 0) + Ones(n / 2, width - 1)
  }

  lemma {:induction false} CountAppend(s: string, t: string, c: char)
    ensures Count(s + t, c) == Count(s, c) + Count(t, c)
  {
    if s == "" {
      assert s + t == t;
    } else {
      assert (s + t)[1..] == s[1..] + t;
      CountAppend(s[1..], t, c);
    }
  }

  lemma {:induction false} NumeralCountsOnes(n: nat, width: nat)
    requires n < Pow2(width)
    ensures Count(Numeral(n), '1') == Ones(n, width)
  {
    var low := if n % 2 == 1 then "1" else "0";
    if n < 2 {
      assert "" + low == low;
      if width > 0 {
        OnesOfZero(width - 1);
      }
    } else {
      CountAppend(Numeral(n / 2), low, '1');
      NumeralCountsOnes(n / 2, width - 1);
    }
  }

  lemma {:induction false} OnesOfZero(width: nat)
    ensures Ones(0, width) == 0
  {
    if width > 0 {
      OnesOfZero(width - 1);
    }
  }

  lemma {:induction false} XorBit(a: nat, b: nat, i: nat)
    ensures Bit(Xor(a, b), i) == (Bit(a, i) != Bit(b, i))
    decreases i
  {
    var low := if a % 2 != b % 2 then 1 else 0;
    assert Xor(a, b) == low + 2 * Xor(a / 2, b / 2);
    if i > 0 {
      assert Xor(a, b) / 2 == Xor(a / 2, b / 2);
      XorBit(a / 2, b / 2, i - 1);
    }
  }

  lemma {:induction false} XorBound(a: nat, b: nat, width: nat)
    requires a < Pow2(width) && b < Pow2(width)
    ensures Xor(a, b) < Pow2(width)
  {
    if width > 0 {
      XorBound(a / 2, b / 2, width - 1);
    }
  }

  ghost function Shifted(s: set<nat>): set<nat> {
    set i | i in s :: i + 1
  }

  lemma {:induction false} ShiftedSize(s: set<nat>)
    ensures |Shifted(s)| == |s| && 0 !in Shifted(s)
  {
    if s != {} {
      var x :| x in s;
      var u := Shifted(s - {x});
      ShiftedSize(s - {x});
      forall y ensures y in Shifted(s) <==> y in u || y == x + 1 {
        if y in Shifted(s) {
          var i :| i in s && y == i + 1;
          assert i == x || i in s - {x};
        }
      }
      assert Shifted(s) == u + {x + 1};
    }
  }

  lemma SetBitsSplit(n: nat, width: nat)
    requires width > 0
    ensures SetBits(n, width) == Shifted(SetBits(n / 2, width - 1)) + (if n % 2 == 1 then {0} else {})
  {
    var high := SetBits(n / 2, width - 1);
    forall i: nat ensures i in SetBits(n, width) <==> i in Shifted(high) || (i == 0 && n % 2 == 1) {
      if i > 0 {
        assert i in SetBits(n, width) <==> i - 1 in high;
        assert i - 1 in high ==> i in Shifted(high);
      }
    }
  }

  lemma {:induction false} OnesIsSize(n: nat, width: nat)
    ensures Ones(n, width) == |SetBits(n, width)|
  {
    if width > 0 {
      OnesIsSize(n / 2, width - 1);
      SetBitsSplit(n, width);
      ShiftedSize(SetBits(n / 2, width - 1));
    }
  }

  /** The distance is the number of positions that differ. */
  lemma DistanceIsDifferences(a: nat, b: nat, width: nat)
    requires a < Pow2(width) && b < Pow2(width)
    ensures HammingDistance(a, b) == |Differences(a, b, width)|
  {
    XorBound(a, b, width);
    NumeralCountsOnes(Xor(a, b), width);
    OnesIsSize(Xor(a, b), width);
    assert SetBits(Xor(a, b), width) == Differences(a, b, width) by {
      forall i: nat ensures i in SetBits(Xor(a, b), width) <==> i in Differences(a, b, width) {
        XorBit(a, b, i);
      }
    }
  }

  lemma {:induction false} SameBits(a: nat, b: nat, width: nat)
    requires a < Pow2(width) && b < Pow2(width)
    requires forall i :: 0 <= i < width ==> Bit(a, i) == Bit(b, i)
    ensures a == b
  {
    if width > 0 {
      forall i | 0 <= i < width - 1 ensures Bit(a / 2, i) == Bit(b / 2, i) {
        assert Bit(a, i + 1) == Bit(b, i + 1);
      }
      SameBits(a / 2, b / 2, width - 1);
      assert Bit(a, 0) == Bit(b, 0);
    }
  }

  lemma SubsetSize<T>(s: set<T>, t: set<T>)
    requires s <= t
    ensures |s| <= |t|
  {
    assert t == s + (t - s);
  }

  /** Every number fits some width. */
  lemma {:induction false} Wide(n: nat)
    ensures n < Pow2(n)
  {
    if n > 0 {
      Wide(n - 1);
    }
  }

  /** The Hamming distance is a metric on the natural numbers. */
  lemma DistanceIsMetric(a: nat, b: nat, c: nat)
    ensures HammingDistance(a, b) == 0 <==> a == b
    ensures HammingDistance(a, b) == HammingDistance(b, a)
    ensures HammingDistance(a, c) <= HammingDistance(a, b) + HammingDistance(b, c)
  {
    var w := a + b + c;
    Wide(w);
    DistanceIsDifferences(a, b, w);
    DistanceIsDifferences(b, a, w);
    DistanceIsDifferences(b, c, w);
    DistanceIsDifferences(a, c, w);
    var ab, bc, ac := Differences(a, b, w), Differences(b, c, w), Differences(a, c, w);
    assert ab == Differences(b, a, w);
    assert ac <= ab + bc;
    SubsetSize(ac, ab + bc);
    if ab == {} {
      forall i | 0 <= i < w ensures Bit(a, i) == Bit(b, i) {
        assert i !in ab;
      }
      SameBits(a, b, w);
    }
  }
}
