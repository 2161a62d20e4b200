/** The Bloom filter of seen transaction IDs. */
module BloomFilters {

  type Byte = b: nat | b < 256

  const CAP := 0x200_0000
  const WORD := 0x1_0000_0000_0000_0000
  const SEEDS: seq<nat> := [7, 11, 13, 31, 37, 61]

  function Power(b: nat, e: nat): nat {
    if e == 0 then 1 else b * Power(b, e - 1)
  }

  /** The bytes as the coefficients of a polynomial in the seed, the last one constant. */
  function Polynomial(value: seq<Byte>, seed: nat): nat {
    if value == [] then 0 else value[0] * Power(seed, |value| - 1) + Polynomial(value[1..], seed)
  }

  /** The index a seed gives a value. */
  function Index(seed: nat, value: seq<Byte>): (i: nat)
    ensures i < CAP
  {
    Polynomial(value, seed) % CAP
  }

  lemma {:induction false} PolynomialStep(value: seq<Byte>, b: Byte, seed: nat)
    ensures Polynomial(value + [b], seed) == Polynomial(value, seed) * seed + b
  {
    if value == [] {
      assert Power(seed, 0) == 1;
    } else {
      assert (value + [b])[1..] == value[1..] + [b];
      PolynomialStep(value[1..], b, seed);
      var c, p, rest := value[0], Power(seed, |value| - 1), Polynomial(value[1..], seed);
      RaisePower(c, p, rest, seed);
    }
  }

  lemma RaisePower(c: nat, p: nat, rest: nat, seed: nat)
    ensures c * (seed * p) + rest * seed == (c * p + rest) * seed
  {
  }

  /** Wrapping around before a step changes nothing after it. */
  lemma WrapStep(p: nat, seed: nat, b: nat)
    ensures ((p % WORD) * seed + b) % WORD == (p * seed + b) % WORD
  {
    var q, r := p / WORD, p % WORD;
    assert p * seed == (q * seed) * WORD + r * seed by { Distribute(q, r, seed); }
  }

  lemma Distribute(q: nat, r: nat, seed: nat)
    ensures (q * WORD + r) * seed == (q * seed) * WORD + r * seed
  {
  }

  lemma MaskWrapped(p: nat)
    ensures (p % WORD) % CAP == p % CAP
  {
    assert p == (p / WORD * (WORD / CAP)) * CAP + p % WORD;
  }

  /** Horner's rule in 64-bit words; masking with CAP - 1, a power of two less one, is the remainder. */
  method Hash(seed: nat, value: seq<Byte>) returns (i: nat)
    ensures i == Index(seed, value)
  {
    var result: nat := 0;
    for n := 0 to |value|
      invariant result == Polynomial(value[..n], seed) % WORD
    {
      assert value[..n + 1] == value[..n] + [value[n]];
      PolynomialStep(value[..n], value[n], seed);
      WrapStep(Polynomial(value[..n], seed), seed, value[n]);
      result := (result * seed + value[n]) % WORD;
    }
    assert value[..|value|] == value;
    MaskWrapped(Polynomial(value, seed));
    i := result % CAP;
  }

  class BloomFilter {
    const bits: array<bool>
    ghost var added: set<seq<Byte>>

    /** Exactly the bits of the added values are set. */
    ghost predicate Valid()
      reads this, bits
    {
      && bits.Length == CAP
      && forall i | 0 <= i < CAP :: bits[i] <==> exists v, s :: v in added && s in SEEDS && Index(s, v) == i
    }

    constructor ()
      ensures Valid() && added == {} && fresh(bits)
    {
      bits := new bool[CAP](_ => false);
      added := {};
    }

    method Add(value: seq<Byte>)
      requires Valid()
      modifies this`added, bits
      ensures Valid() && added == old(added) + {value}
    {
      for f := 0 to |SEEDS|
        invariant bits.Length == CAP && added == old(added)
        invariant forall i | 0 <= i < CAP ::
                    bits[i] <==> old(bits[i]) || exists s :: s in SEEDS[..f] && Index(s, value) == i
      {
        var i := Hash(SEEDS[f], value);
        assert SEEDS[..f + 1] == SEEDS[..f] + [SEEDS[f]];
        bits[i] := true;
      }
      assert SEEDS[..|SEEDS|] == SEEDS;
      added := added + {value};
      forall i | 0 <= i < CAP ensures bits[i] <==> exists v, s :: v in added && s in SEEDS && Index(s, v) == i {
        if bits[i] {
          if !old(bits[i]) { assert value in added; }
        }
      }
    }

    /** The empty value is never reported; every other added value always is. */
    method Contains(value: seq<Byte>) returns (ret: bool)
      requires Valid()
      ensures ret <==> value != [] && forall s | s in SEEDS :: bits[Index(s, value)]
      ensures value in added && value != [] ==> ret
    {
      if value == [] {
        return false;
      }
      ret := true;
      for f := 0 to |SEEDS|
        invariant ret <==> forall s | s in SEEDS[..f] :: bits[Index(s, value)]
      {
        var i := Hash(SEEDS[f], value);
        assert SEEDS[..f + 1] == SEEDS[..f] + [SEEDS[f]];
        ret := ret && bits[i];
      }
      assert SEEDS[..|SEEDS|] == SEEDS;
    }
  }
}
