/**
 * The random source of js/rng.js. `crypto.getRandomValues` is an oracle: an
 * endless stream of 32-bit words, of which every call consumes the next one.
 */
module Random {

  const TWO_POW_32 := 0x1_0000_0000

  /** An unsigned 32-bit word, the content of `new Uint32Array(1)`. */
  type Word = x: int | 0 <= x < TWO_POW_32

  /**
   * `randInt(lo, hi)` for the drawn word `x`: `lo + Math.floor(x / 2^32 * span)`.
   * The product is exact in double precision for every span the games use,
   * so the floor is the integer quotient below.
   */
  function Scale(lo: int, hi: int, x: Word): (r: int)
    ensures lo <= hi ==> lo <= r <= hi
  {
    var span := hi - lo + 1;
    if span > 0 then
      ScaleBelowSpan(x, span);
      lo + (x * span) / TWO_POW_32
    else
      lo + (x * span) / TWO_POW_32
  }

  /** The scaled word stays below the span. */
  lemma ScaleBelowSpan(x: Word, span: int)
    requires span > 0
    ensures 0 <= (x * span) / TWO_POW_32 < span
  {
    assert 0 <= x * span < TWO_POW_32 * span by {
      assert x * span < TWO_POW_32 * span;
    }
  }

  /** The entropy source shared by all games. */
  class Rng {
    const draw: nat -> Word
    var used: nat

    constructor (draw: nat -> Word)
      ensures this.draw == draw && used == 0
    {
      this.draw := draw;
      used := 0;
    }

    /** `randInt(lo, hi)`: a whole number in `lo..hi`, from the next word of the stream. */
    method RandInt(lo: int, hi: int) returns (r: int)
      modifies this
      ensures used == old(used) + 1
      ensures r == Scale(lo, hi, draw(old(used)))
      ensures lo <= hi ==> lo <= r <= hi
    {
      r := Scale(lo, hi, draw(used));
      used := used + 1;
    }
  }
}
