/** How tall a new tower is: the 32-bit draw of the kernel's pseudo-random generator decides. */
module RandomLevel {
  import opened Towers

  const PID_SL_P: int := 4
  const DRAWS: int := 0x1_0000_0000

  type Draw = d: int | 0 <= d < DRAWS

  /** The number of trailing zero groups of PID_SL_P bits of a draw that is not 0. */
  function TrailingZeroNibbles(d: int): (n: nat)
    requires d > 0
    ensures n > 0 ==> d >= 16
  {
    if d % 16 == 0 then 1 + TrailingZeroNibbles(d / 16) else 0
  }

  /** The height drawn for a new node. */
  function LevelOf(d: Draw): (level: int) {
    if d == 0 then PID_SL_MAX_LEVEL else 1 + TrailingZeroNibbles(d)
  }

  function Pow16(n: nat): (p: int)
    ensures p >= 1
  {
    if n == 0 then 1 else 16 * Pow16(n - 1)
  }

  lemma {:induction false} NibblesBound(d: int, n: nat)
    requires 0 < d < Pow16(n)
    ensures TrailingZeroNibbles(d) < n
  {
    if n > 0 && d % 16 == 0 {
      NibblesBound(d / 16, n - 1);
    }
  }

  /** A 32-bit draw has eight nibbles, so level 16 means the draw was 0 and levels 9 to 15 never occur. */
  lemma LevelRange(d: Draw)
    ensures 1 <= LevelOf(d) <= PID_SL_MAX_LEVEL
    ensures LevelOf(d) == PID_SL_MAX_LEVEL <==> d == 0
    ensures d != 0 ==> LevelOf(d) <= 8
  {
    if d != 0 {
      assert Pow16(8) == DRAWS by {
        assert Pow16(4) == 65536;
        assert Pow16(6) == 256 * Pow16(4);
      }
      NibblesBound(d, 8);
    }
  }

  lemma MultipleGrows(q: int, t: int)
    requires q > 0
    ensures t >= 1 ==> q * t >= q
    ensures t <= -1 ==> q * t <= -q
  {
  }

  lemma ModOfMultiple(q: int, k: int)
    requires q > 0
    ensures (q * k) % q == 0
  {
    var n := q * k;
    MultipleGrows(q, k - n / q);
    assert q * (k - n / q) == n % q;
  }

  lemma MulMod(a: int, q: int)
    requires a >= 0 && q >= 1
    ensures (16 * a) % (16 * q) == 0 <==> a % q == 0
  {
    if (16 * a) % (16 * q) == 0 {
      ModOfMultiple(q, (16 * a) / (16 * q));
    }
    if a % q == 0 {
      ModOfMultiple(16 * q, a / q);
    }
  }

  lemma OddNibble(d: int, q: int)
    requires d > 0 && d % 16 != 0 && q >= 1
    ensures d % (16 * q) != 0
  {
    if d % (16 * q) == 0 {
      var k := q * (d / (16 * q));
      assert d == 16 * k;
      ModOfMultiple(16, k);
    }
  }

  lemma {:induction false} NibblesExact(d: int, n: nat)
    requires d > 0
    ensures TrailingZeroNibbles(d) >= n <==> d % Pow16(n) == 0
  {
    if n > 0 {
      var q, e := Pow16(n - 1), d / 16;
      assert Pow16(n) == 16 * q;
      if d % 16 == 0 {
        assert d == 16 * e;
        NibblesExact(e, n - 1);
        MulMod(e, q);
      } else {
        OddNibble(d, q);
      }
    }
  }

  /** A tower reaches level n exactly when the draw is a multiple of 16 to the n-1; the cap is 16. */
  lemma LevelMeaning(d: Draw, n: int)
    requires 1 <= n <= PID_SL_MAX_LEVEL
    ensures LevelOf(d) >= n <==> d % Pow16(n - 1) == 0
  {
    LevelRange(d);
    if d != 0 {
      NibblesExact(d, n - 1);
    }
  }

  /** The loop that turns a draw into a height. */
  method PidSlRandomLevel(draw: Draw) returns (level: int)
    ensures level == LevelOf(draw)
  {
    level := 1;
    var random: int := draw;
    LevelRange(draw);
    while level < PID_SL_MAX_LEVEL && random % 16 == 0
      invariant 1 <= level <= PID_SL_MAX_LEVEL && 0 <= random
      invariant draw == 0 ==> random == 0
      invariant draw != 0 ==> random > 0 && LevelOf(draw) == level + TrailingZeroNibbles(random)
      decreases PID_SL_MAX_LEVEL - level
    {
      random := random / 16;
      level := level + 1;
    }
  }
}
