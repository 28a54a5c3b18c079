module CircularArithmetic {
  /* Unsigned 64-bit arithmetic on queue indices (index_t) in src/concurrentqueue.h. */

  const WORD: int := 0x1_0000_0000_0000_0000
  const HALF: int := 0x8000_0000_0000_0000

  const BLOCK_SIZE: nat := 32

  type Word64 = x: int | 0 <= x < WORD

  /** The number of the block that an index lies in. */
  function BlockOf(i: nat): nat { i / BLOCK_SIZE }

  /** The 64-bit word that holds the integer. */
  function W(x: int): Word64 { x % WORD }

  function Minus(a: Word64, b: Word64): Word64 { W(a - b) }

  /** details::circular_less_than. */
  predicate CircularLess(a: Word64, b: Word64) { Minus(a, b) > HALF }

  lemma WAddMultiple(x: int, k: int)
    ensures W(x + k * WORD) == W(x)
  {
  }

  lemma WDecompose(x: int)
    ensures exists k :: x == W(x) + k * WORD
  {
    assert x == W(x) + (x / WORD) * WORD;
  }

  /** Subtracting words is subtracting the integers they stand for. */
  lemma MinusIsDifference(x: int, y: int)
    ensures Minus(W(x), W(y)) == W(x - y)
  {
    var i := x / WORD;
    var j := y / WORD;
    assert x == W(x) + i * WORD && y == W(y) + j * WORD;
    assert x - y == (W(x) - W(y)) + (i - j) * WORD;
    WAddMultiple(W(x) - W(y), i - j);
  }

  lemma WSmall(x: int)
    requires 0 <= x < WORD
    ensures W(x) == x
  {
  }

  lemma WNegative(x: int)
    requires -WORD <= x < 0
    ensures W(x) == x + WORD
  {
    WAddMultiple(x, 1);
    WSmall(x + WORD);
  }

  /** The comparison is the integer comparison exactly on the half-open window of distances
      (-2^63, 2^63]; one step outside, in either direction, it gives the opposite answer. */
  lemma CircularLessWindow(x: int, y: int)
    ensures -HALF < x - y <= HALF ==> (CircularLess(W(x), W(y)) <==> x < y)
    ensures -WORD <= x - y < WORD && (CircularLess(W(x), W(y)) <==> x < y) ==> -HALF < x - y <= HALF
  {
    MinusIsDifference(x, y);
    if 0 <= x - y < WORD { WSmall(x - y); }
    if -WORD <= x - y < 0 { WNegative(x - y); }
  }

  /** The bulk form of the test, `0 < difference`, is the single form. */
  lemma BulkTestIsSingleTest(a: Word64, b: Word64)
    ensures CircularLess(0, Minus(b, a)) == CircularLess(a, b)
  {
    MinusIsDifference(0, b - a);
    assert W(0) == 0;
  }
}
