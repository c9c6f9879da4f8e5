/** Title fingerprints and their signed storage: app/dedup/simhash.py. */
module Simhash {
  import opened Bits
  import Records

  const BITS := 64

  /** Tokens whose digest has bit i. */
  function Support(tokens: seq<string>, md5: string -> nat, i: nat): (r: nat)
    ensures r <= |tokens|
  {
    if tokens == [] then 0 else (if Bit(md5(tokens[0]), i) then 1 else 0) + Support(tokens[1..], md5, i)
  }

  /** The vote on bit i: one up for each token that has it, one down for each that has not. */
  function Weight(tokens: seq<string>, md5: string -> nat, i: nat): int {
    2 * Support(tokens, md5, i) - |tokens|
  }

  /** The number whose bit i, for i below `width`, says whether a strict majority of tokens has bit `from + i`. */
  function Fingerprint(tokens: seq<string>, md5: string -> nat, from: nat, width: nat): nat
    decreases width
  {
    if width == 0 then 0
    else (if Weight(tokens, md5, from) > 0 then 1 else 0) + 2 * Fingerprint(tokens, md5, from + 1, width - 1)
  }

  lemma {:induction false} FingerprintBound(tokens: seq<string>, md5: string -> nat, from: nat, width: nat)
    ensures Fingerprint(tokens, md5, from, width) < Pow2(width)
    decreases width
  {
    if width > 0 {
      FingerprintBound(tokens, md5, from + 1, width - 1);
    }
  }

  lemma {:induction false} FingerprintBits(tokens: seq<string>, md5: string -> nat, from: nat, width: nat, i: nat)
    requires i < width
    ensures Bit(Fingerprint(tokens, md5, from, width), i) <==> 2 * Support(tokens, md5, from + i) > |tokens|
    decreases width
  {
    assert Fingerprint(tokens, md5, from, width) / 2 == Fingerprint(tokens, md5, from + 1, width - 1);
    if i > 0 {
      FingerprintBits(tokens, md5, from + 1, width - 1, i - 1);
    }
  }

  /** Bitwise inclusive or. */
  function Or(a: nat, b: nat): nat
    decreases a + b
  {
    if a == 0 && b == 0 then 0
    else (if a % 2 == 1 || b % 2 == 1 then 1 else 0) + 2 * Or(a / 2, b / 2)
  }

  lemma {:induction false} OrBit(a: nat, b: nat, i: nat)
    ensures Bit(Or(a, b), i) == (Bit(a, i) || Bit(b, i))
    decreases i
  {
    var low := if a % 2 == 1 || b % 2 == 1 then 1 else 0;
    assert Or(a, b) == low + 2 * Or(a / 2, b / 2);
    if i > 0 {
      assert Or(a, b) / 2 == Or(a / 2, b / 2);
      OrBit(a / 2, b / 2, i - 1);
    }
  }

  lemma {:induction false} OrBound(a: nat, b: nat, width: nat)
    requires a < Pow2(width) && b < Pow2(width)
    ensures Or(a, b) < Pow2(width)
  {
    if width > 0 {
      OrBound(a / 2, b / 2, width - 1);
    }
  }

  lemma {:induction false} Pow2Bit(n: nat, i: nat)
    ensures Bit(Pow2(n), i) <==> i == n
  {
    if n > 0 {
      if i > 0 {
        Pow2Bit(n - 1, i - 1);
      }
    } else if i > 0 {
      ZeroBit(i - 1);
    }
  }

  lemma {:induction false} ZeroBit(i: nat)
    ensures !Bit(0, i)
  {
    if i > 0 {
      ZeroBit(i - 1);
    }
  }

  lemma {:induction false} SupportAppend(s: seq<string>, t: seq<string>, md5: string -> nat, i: nat)
    ensures Support(s + t, md5, i) == Support(s, md5, i) + Support(t, md5, i)
  {
    if s == [] {
      assert s + t == t;
    } else {
      assert (s + t)[1..] == s[1..] + t;
      SupportAppend(s[1..], t, md5, i);
    }
  }

  lemma WeightOfOneMore(tokens: seq<string>, token: string, md5: string -> nat, i: nat)
    ensures Weight(tokens + [token], md5, i) == Weight(tokens, md5, i) + (if Bit(md5(token), i) then 1 else -1)
  {
    SupportAppend(tokens, [token], md5, i);
    assert Support([token][1..], md5, i) == 0;
  }

  /** The loops of `simhash`: vote per bit, then collect the bits with a positive vote. */
  method Simhash(tokens: seq<string>, md5: string -> nat, bits: nat := BITS) returns (fingerprint: nat)
    ensures fingerprint < Pow2(bits)
    ensures fingerprint == Fingerprint(tokens, md5, 0, bits)
    ensures forall i: nat :: i < bits ==> (Bit(fingerprint, i) <==> 2 * Support(tokens, md5, i) > |tokens|)
  {
    if tokens == [] {
      fingerprint := 0;
      forall i: nat | i < bits ensures Bit(0, i) <==> 2 * Support(tokens, md5, i) > |tokens| {
        ZeroBit(i);
      }
      Pinned(0, tokens, md5, bits);
      return;
    }
    var weights := new int[bits](_ => 0);
    for n := 0 to |tokens|
      invariant forall i: nat :: i < bits ==> weights[i] == Weight(tokens[..n], md5, i)
    {
      var digest := md5(tokens[n]);
      for i := 0 to bits
        invariant forall j: nat :: j < i ==> weights[j] == Weight(tokens[..n + 1], md5, j)
        invariant forall j: nat :: i <= j < bits ==> weights[j] == Weight(tokens[..n], md5, j)
      {
        assert tokens[..n + 1] == tokens[..n] + [tokens[n]];
        WeightOfOneMore(tokens[..n], tokens[n], md5, i);
        weights[i] := weights[i] + (if Bit(digest, i) then 1 else -1);
      }
    }
    assert tokens[..|tokens|] == tokens;
    fingerprint := 0;
    for i := 0 to bits
      invariant fingerprint < Pow2(i)
      invariant forall j: nat :: j < bits ==> weights[j] == Weight(tokens, md5, j)
      invariant forall j: nat :: j < i ==> (Bit(fingerprint, j) <==> Weight(tokens, md5, j) > 0)
    {
      if weights[i] > 0 {
        var before := fingerprint;
        fingerprint := Or(fingerprint, Pow2(i));
        OrBound(before, Pow2(i), i + 1);
        forall j: nat | j <= i ensures Bit(fingerprint, j) <==> Weight(tokens, md5, j) > 0 {
          OrBit(before, Pow2(i), j);
          Pow2Bit(i, j);
        }
      } else {
        HighBit(fingerprint, i);
      }
    }
    Pinned(fingerprint, tokens, md5, bits);
  }

  lemma {:induction false} HighBit(n: nat, i: nat)
    requires n < Pow2(i)
    ensures !Bit(n, i)
  {
    if i > 0 {
      HighBit(n / 2, i - 1);
    }
  }

  /** The majority rule leaves no freedom. */
  lemma Pinned(n: nat, tokens: seq<string>, md5: string -> nat, bits: nat)
    requires n < Pow2(bits)
    requires forall i: nat :: i < bits ==> (Bit(n, i) <==> 2 * Support(tokens, md5, i) > |tokens|)
    ensures n == Fingerprint(tokens, md5, 0, bits)
  {
    FingerprintBound(tokens, md5, 0, bits);
    forall i | 0 <= i < bits ensures Bit(n, i) == Bit(Fingerprint(tokens, md5, 0, bits), i) {
      FingerprintBits(tokens, md5, 0, bits, i);
    }
    SameBits(n, Fingerprint(tokens, md5, 0, bits), bits);
  }

  // ---- stability ----

  /** Taking one token out of a list. */
  lemma WithoutOne(t: seq<string>, k: nat, md5: string -> nat, i: nat)
    requires k < |t|
    ensures Support(t, md5, i) == Support(t[..k] + t[k + 1..], md5, i) + if Bit(md5(t[k]), i) then 1 else 0
  {
    var tail := [t[k]] + t[k + 1..];
    assert t == t[..k] + tail;
    SupportAppend(t[..k], tail, md5, i);
    SupportAppend(t[..k], t[k + 1..], md5, i);
    assert tail[1..] == t[k + 1..];
  }

  lemma {:induction false} SupportOfBag(s: seq<string>, t: seq<string>, md5: string -> nat, i: nat)
    requires multiset(s) == multiset(t)
    ensures Support(s, md5, i) == Support(t, md5, i) && |s| == |t|
  {
    if s == [] {
      assert |multiset(t)| == 0;
    } else {
      var k := Records.FindFirst(s, t);
      WithoutOne(t, k, md5, i);
      SupportOfBag(s[1..], t[..k] + t[k + 1..], md5, i);
    }
  }

  /** Two token lists with the same votes, up to sign, have the same fingerprint. */
  lemma {:induction false} SameVotes(s: seq<string>, t: seq<string>, md5: string -> nat, from: nat, width: nat)
    requires forall i: nat :: Weight(s, md5, i) > 0 <==> Weight(t, md5, i) > 0
    ensures Fingerprint(s, md5, from, width) == Fingerprint(t, md5, from, width)
    decreases width
  {
    if width > 0 {
      SameVotes(s, t, md5, from + 1, width - 1);
    }
  }

  /** Only the bag of tokens matters, not their order. */
  lemma OrderIrrelevant(s: seq<string>, t: seq<string>, md5: string -> nat, bits: nat)
    requires multiset(s) == multiset(t)
    ensures Fingerprint(s, md5, 0, bits) == Fingerprint(t, md5, 0, bits)
  {
    forall i: nat ensures Weight(s, md5, i) == Weight(t, md5, i) {
      SupportOfBag(s, t, md5, i);
    }
    SameVotes(s, t, md5, 0, bits);
  }

  function Repeated(tokens: seq<string>, times: nat): seq<string> {
    if times == 0 then [] else tokens + Repeated(tokens, times - 1)
  }

  lemma {:induction false} RepeatedWeight(tokens: seq<string>, times: nat, md5: string -> nat, i: nat)
    ensures Weight(Repeated(tokens, times), md5, i) == times * Weight(tokens, md5, i)
  {
    if times > 0 {
      RepeatedWeight(tokens, times - 1, md5, i);
      SupportAppend(tokens, Repeated(tokens, times - 1), md5, i);
      assert times * Weight(tokens, md5, i) == (times - 1) * Weight(tokens, md5, i) + Weight(tokens, md5, i);
    }
  }

  lemma Scale(times: nat, w: int)
    requires times >= 1
    ensures times * w > 0 <==> w > 0
  {
    if w <= 0 {
      assert times * -w >= 0;
    }
  }

  /** Repeating the whole title changes nothing. */
  lemma RepetitionIrrelevant(tokens: seq<string>, times: nat, md5: string -> nat, bits: nat)
    requires times >= 1
    ensures Fingerprint(Repeated(tokens, times), md5, 0, bits) == Fingerprint(tokens, md5, 0, bits)
  {
    forall i: nat ensures Weight(Repeated(tokens, times), md5, i) > 0 <==> Weight(tokens, md5, i) > 0 {
      RepeatedWeight(tokens, times, md5, i);
      Scale(times, Weight(tokens, md5, i));
    }
    SameVotes(Repeated(tokens, times), tokens, md5, 0, bits);
  }

  /** The bits one more token can flip. */
  ghost function Unsettled(tokens: seq<string>, md5: string -> nat, bits: nat): set<nat> {
    set i: nat | i < bits && Weight(tokens, md5, i) in {0, 1}
  }

  /** One more token flips bit i exactly when the vote was tied and the token has the bit, or the
  vote was won by one and the token lacks it. */
  lemma OneMoreTokenFlips(tokens: seq<string>, token: string, md5: string -> nat, bits: nat, i: nat)
    requires i < bits
    ensures Bit(Fingerprint(tokens, md5, 0, bits), i) != Bit(Fingerprint(tokens + [token], md5, 0, bits), i)
            <==> Weight(tokens, md5, i) == if Bit(md5(token), i) then 0 else 1
  {
    FingerprintBits(tokens, md5, 0, bits, i);
    FingerprintBits(tokens + [token], md5, 0, bits, i);
    WeightOfOneMore(tokens, token, md5, i);
  }

  /** So the distance one more token can move a fingerprint is at most the number of close votes. */
  lemma OneMoreToken(tokens: seq<string>, token: string, md5: string -> nat, bits: nat)
    ensures HammingDistance(Fingerprint(tokens, md5, 0, bits), Fingerprint(tokens + [token], md5, 0, bits))
            <= |Unsettled(tokens, md5, bits)|
  {
    var f, g := Fingerprint(tokens, md5, 0, bits), Fingerprint(tokens + [token], md5, 0, bits);
    FingerprintBound(tokens, md5, 0, bits);
    FingerprintBound(tokens + [token], md5, 0, bits);
    DistanceIsDifferences(f, g, bits);
    forall i | i in Differences(f, g, bits) ensures i in Unsettled(tokens, md5, bits) {
      OneMoreTokenFlips(tokens, token, md5, bits, i);
    }
    SubsetSize(Differences(f, g, bits), Unsettled(tokens, md5, bits));
  }

  // ---- signed storage ----

  const HALF: nat := 0x8000_0000_0000_0000
  const FULL: nat := 0x1_0000_0000_0000_0000

  predicate FitsInt8(v: int) {
    -(HALF as int) <= v < HALF
  }

  function ToSigned64(fingerprint: nat): int {
    if fingerprint >= HALF then fingerprint - FULL else fingerprint
  }

  /** Bitwise and of a signed number, read in two's complement, with a mask. */
  function And(value: int, mask: nat): nat
    decreases mask
  {
    if mask == 0 then 0
    else (if value % 2 == 1 && mask % 2 == 1 then 1 else 0) + 2 * And(value / 2, mask / 2)
  }

  function FromSigned64(value: int): nat {
    And(value, FULL - 1)
  }

  lemma {:induction false} AndKeepsLowBits(value: int, width: nat)
    ensures And(value, Pow2(width) - 1) == value % Pow2(width)
    decreases width
  {
    if width > 0 {
      var half := Pow2(width - 1);
      AndKeepsLowBits(value / 2, width - 1);
      assert (Pow2(width) - 1) / 2 == half - 1;
      LowBitSplit(value, half);
    }
  }

  lemma LowBitSplit(value: int, half: nat)
    requires half >= 1
    ensures value % (2 * half) == value % 2 + 2 * ((value / 2) % half)
  {
    var q, r := (value / 2) / half, (value / 2) % half;
    assert value == 2 * (q * half + r) + value % 2;
    var low := value % 2 + 2 * r;
    assert 2 * (q * half) == q * (2 * half);
    assert value == q * (2 * half) + low;
    DivisionUnique(value, 2 * half, q, low);
  }

  lemma AtLeast(factor: int, divisor: int)
    ensures factor >= 1 && divisor >= 0 ==> factor * divisor >= divisor
  {
    if factor >= 1 && divisor >= 0 {
      assert factor * divisor == (factor - 1) * divisor + divisor;
    }
  }

  lemma SmallMultiple(factor: int, divisor: int)
    requires -divisor < factor * divisor < divisor
    ensures factor == 0
  {
    AtLeast(factor, divisor);
    AtLeast(-factor, divisor);
    assert (-factor) * divisor == -(factor * divisor);
  }

  lemma DivisionUnique(value: int, divisor: nat, q: int, r: int)
    requires divisor >= 1 && 0 <= r < divisor && value == q * divisor + r
    ensures value % divisor == r
  {
    var q' := value / divisor;
    assert value == q' * divisor + value % divisor;
    assert (q - q') * divisor == q * divisor - q' * divisor;
    SmallMultiple(q - q', divisor);
  }

  lemma FullIsPow2()
    ensures Pow2(BITS) == FULL
  {
    assert Pow2(4) == 0x10;
    Pow2Sum(4, 4);
    Pow2Sum(8, 8);
    assert Pow2(16) == 0x1_0000;
    Pow2Sum(16, 16);
    Pow2Sum(32, 32);
  }

  lemma {:induction false} Pow2Sum(m: nat, n: nat)
    ensures Pow2(m + n) == Pow2(m) * Pow2(n)
  {
    if m > 0 {
      Pow2Sum(m - 1, n);
      assert Pow2(m) * Pow2(n) == 2 * (Pow2(m - 1) * Pow2(n));
    }
  }

  /** Storage loses nothing: 64-bit fingerprints fit the signed column, come back unchanged, and
  their distance can be taken after the round trip. */
  lemma SignedStorage(a: nat, b: nat)
    requires a < FULL && b < FULL
    ensures FitsInt8(ToSigned64(a))
    ensures FromSigned64(ToSigned64(a)) == a
    ensures HammingDistance(a, FromSigned64(ToSigned64(b))) == HammingDistance(a, b)
    ensures ToSigned64(a) == ToSigned64(b) <==> a == b
  {
    FullIsPow2();
    AndKeepsLowBits(ToSigned64(a), BITS);
    AndKeepsLowBits(ToSigned64(b), BITS);
    DivisionUnique(ToSigned64(a), FULL, if a >= HALF then -1 else 0, a);
    DivisionUnique(ToSigned64(b), FULL, if b >= HALF then -1 else 0, b);
  }

  /** And the other way round: every value the column can hold comes from one fingerprint. */
  lemma StoredValueRoundTrip(v: int)
    requires FitsInt8(v)
    ensures FromSigned64(v) < FULL && ToSigned64(FromSigned64(v)) == v
  {
    FullIsPow2();
    AndKeepsLowBits(v, BITS);
    DivisionUnique(v, FULL, if v < 0 then -1 else 0, if v < 0 then v + FULL else v);
  }

  /** The advisory lock key of a market: the low half of its UUID, made signed. */
  function MarketLockKey(uuid: nat): int {
    ToSigned64(And(uuid, FULL - 1))
  }

  /** The key always fits int8, and two markets share a lock exactly when the low halves agree. */
  lemma LockKeys(u: nat, v: nat)
    ensures FitsInt8(MarketLockKey(u))
    ensures MarketLockKey(u) == MarketLockKey(v) <==> u % FULL == v % FULL
  {
    FullIsPow2();
    AndKeepsLowBits(u, BITS);
    AndKeepsLowBits(v, BITS);
    SignedStorage(u % FULL, v % FULL);
  }
}
