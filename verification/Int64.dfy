/** Two's complement 64-bit integers, as the source's int64 has them. */
module Int64 {

  const TWO63: int := 0x8000_0000_0000_0000
  const TWO64: int := 0x1_0000_0000_0000_0000

  ghost predicate IsInt64(x: int) {
    -TWO63 <= x < TWO63
  }

  function Wrap(x: int): (w: int)
    ensures -TWO63 <= w < TWO63
  {
    (x + TWO63) % TWO64 - TWO63
  }

  lemma WrapIffFits(x: int)
    ensures Wrap(x) == x <==> IsInt64(x)
  {
  }

  type int64 = x: int | -TWO63 <= x < TWO63

  /** The int64 sum of two int64 numbers. */
  function Add(x: int, y: int): (s: int)
    ensures IsInt64(x) && IsInt64(y) ==> IsInt64(s)
  {
    if x + y >= TWO63 then x + y - TWO64 else if x + y < -TWO63 then x + y + TWO64 else x + y
  }

  /** Adding to a wrapped number is wrapping the sum. */
  lemma WrapAdd(x: int, y: int)
    requires -TWO63 <= y < TWO63
    ensures Add(Wrap(x), y) == Wrap(x + y)
  {
    var k := (x + TWO63) / TWO64;
    assert Wrap(x) == x - k * TWO64;
    var carry := if Wrap(x) + y >= TWO63 then 1 else if Wrap(x) + y < -TWO63 then -1 else 0;
    WrapIsUnique(Add(Wrap(x), y), x + y, k + carry);
  }

  /** The int64 number that differs from x by a multiple of 2^64 is x wrapped. */
  lemma WrapIsUnique(s: int, x: int, laps: int)
    requires IsInt64(s) && s == x - laps * TWO64
    ensures s == Wrap(x)
  {
    assert (s + TWO63) % TWO64 == s + TWO63;
    assert (s + TWO63 + laps * TWO64) % TWO64 == (s + TWO63) % TWO64;
  }
}
