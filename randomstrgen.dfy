/**
 * The random short-path generator of svc/randomstrgen.go.
 *
 * `*rand.Rand`, seeded from the clock, is modelled as an index source: an
 * arbitrary stream of naturals `next(0), next(1), ...` that `Intn(n)` reads
 * one at a time and reduces into [0, n). Any stream a seed could produce is
 * one of these, so what is proved holds for every seed.
 */
module RandomGen {

  class Rand {
    /** The raw draws the seed determines. */
    const next: nat -> nat
    /** How many draws have been taken. */
    var pos: nat

    constructor New(next: nat -> nat)
      ensures this.next == next && pos == 0
    {
      this.next := next;
      pos := 0;
    }

    /** `Intn(n)`: a value in [0, n); Go panics when n <= 0. */
    method Intn(n: int) returns (r: int)
      requires n > 0
      modifies this
      ensures 0 <= r < n
      ensures r == next(old(pos)) % n && pos == old(pos) + 1
    {
      r := next(pos) % n;
      pos := pos + 1;
    }
  }

  /** The length `Generate` picks when the first draw is `draw`. */
  function LengthFor(minLength: int, maxLength: int, draw: nat): int
  {
    if maxLength > minLength then minLength + draw % (maxLength - minLength + 1) else minLength
  }

  /** The number of draws `Generate` takes for the length. */
  function LengthDraws(minLength: int, maxLength: int): nat
  {
    if maxLength > minLength then 1 else 0
  }

  /** The string `Generate` builds from the draws starting at `pos`. */
  function Generated(minLength: int, maxLength: int, charset: string, next: nat -> nat, pos: nat): string
    requires LengthFor(minLength, maxLength, next(pos)) >= 0
  {
    var length := LengthFor(minLength, maxLength, next(pos));
    var start := pos + LengthDraws(minLength, maxLength);
    if |charset| == 0 then []
    else seq(length, i requires 0 <= i < length => charset[next(start + i) % |charset|])
  }

  /** The chosen length is exactly min when max <= min, and within [min, max] otherwise. */
  lemma LengthForBounds(minLength: int, maxLength: int, draw: nat)
    ensures maxLength <= minLength ==> LengthFor(minLength, maxLength, draw) == minLength
    ensures maxLength > minLength ==> minLength <= LengthFor(minLength, maxLength, draw) <= maxLength
  {
  }

  /** Every generated string has an allowed length and only bytes of the charset. */
  lemma GeneratedWellFormed(minLength: int, maxLength: int, charset: string, next: nat -> nat, pos: nat)
    requires LengthFor(minLength, maxLength, next(pos)) >= 0
    requires |charset| > 0 || LengthFor(minLength, maxLength, next(pos)) == 0
    ensures var s := Generated(minLength, maxLength, charset, next, pos);
      && (maxLength <= minLength ==> |s| == minLength)
      && (maxLength > minLength ==> minLength <= |s| <= maxLength)
      && forall i :: 0 <= i < |s| ==> s[i] in charset
  {
    LengthForBounds(minLength, maxLength, next(pos));
  }

  class RandomStrGen {
    const minLength: int
    const maxLength: int
    const charset: string
    const rand: Rand

    /** `NewRandomStrGen`: keeps min, max and charset as given; the seeded source is a parameter. */
    constructor NewRandomStrGen(minLength: int, maxLength: int, charset: string, rand: Rand)
      ensures this.minLength == minLength && this.maxLength == maxLength
      ensures this.charset == charset && this.rand == rand
    {
      this.minLength := minLength;
      this.maxLength := maxLength;
      this.charset := charset;
      this.rand := rand;
    }

    /**
     * `Generate`: pick a length (one draw when max > min), then fill a byte
     * buffer of that length with one charset byte per draw. The preconditions
     * are exactly when Go panics: `make` with a negative length, or `Intn(0)`
     * on an empty charset once the length drawn is positive.
     */
    method Generate() returns (s: string)
      requires LengthFor(minLength, maxLength, rand.next(rand.pos)) >= 0
      requires |charset| > 0 || LengthFor(minLength, maxLength, rand.next(rand.pos)) == 0
      modifies rand
      ensures s == Generated(minLength, maxLength, charset, rand.next, old(rand.pos))
      ensures rand.pos == old(rand.pos) + LengthDraws(minLength, maxLength) + |s|
      ensures maxLength <= minLength ==> |s| == minLength
      ensures maxLength > minLength ==> minLength <= |s| <= maxLength
      ensures forall i :: 0 <= i < |s| ==> s[i] in charset
    {
      ghost var pos0 := rand.pos;
      var length := minLength;
      if maxLength > minLength {
        var d := rand.Intn(maxLength - minLength + 1);
        length := minLength + d;
      }
      assert length == LengthFor(minLength, maxLength, rand.next(pos0));
      ghost var start := pos0 + LengthDraws(minLength, maxLength);
      var b := new char[length];
      for i := 0 to length
        invariant rand.pos == start + i
        invariant forall k :: 0 <= k < i ==> b[k] == charset[rand.next(start + k) % |charset|]
      {
        var c := rand.Intn(|charset|);
        b[i] := charset[c];
      }
      s := b[..];
      GeneratedWellFormed(minLength, maxLength, charset, rand.next, pos0);
    }
  }
}
