/** The per-tick liquidity bound of a V3 pool, with Rust's truncating division. */
module MaxLiquidity {
  import opened Wrappers

  const MIN_TICK: int := -887272
  const MAX_TICK: int := 887272
  const MAX_U128: nat := 0xFFFF_FFFF_FFFF_FFFF_FFFF_FFFF_FFFF_FFFF

  /** Division that rounds towards zero. */
  function TruncatingDiv(a: int, b: int): int
    requires b > 0
  {
    if a >= 0 then a / b else -((-a) / b)
  }

  function MaxLiquidityPerTick(spacing: int): Option<nat> {
    if spacing <= 0 then None
    else
      var minTick := TruncatingDiv(MIN_TICK, spacing) * spacing;
      var maxTick := TruncatingDiv(MAX_TICK, spacing) * spacing;
      var count := TruncatingDiv(maxTick - minTick, spacing) + 1;
      if count <= 0 then None else Some(MAX_U128 / count)
  }

  /** How many multiples of the spacing lie between zero and the highest tick. */
  function Half(spacing: int): (h: int)
    requires spacing > 0
    ensures h >= 0
  {
    MAX_TICK / spacing
  }

  /** A tick that liquidity may be assigned to. */
  predicate Usable(spacing: int, tick: int)
    requires spacing > 0
  {
    MIN_TICK <= tick <= MAX_TICK && tick % spacing == 0
  }

  /** The liquidity on the ticks with multiples `lo` to `hi`. */
  function Assigned(liquidity: int -> nat, spacing: int, lo: int, hi: int): nat
    requires spacing > 0
    decreases hi - lo
  {
    if hi < lo then 0 else Assigned(liquidity, spacing, lo, hi - 1) + liquidity(hi * spacing)
  }

  /** The liquidity on all usable ticks. */
  function TotalLiquidity(liquidity: int -> nat, spacing: int): nat
    requires spacing > 0
  {
    Assigned(liquidity, spacing, -Half(spacing), Half(spacing))
  }

  // ---------------------------------------------------------------------- arithmetic

  lemma Times(a: int, b: int, c: int)
    requires a <= b && c >= 0
    ensures a * c <= b * c
  {
  }

  lemma Quotient(a: int, b: int)
    requires a >= 0 && b > 0
    ensures a / b >= 0 && a / b * b <= a < (a / b + 1) * b
  {
    assert a == a / b * b + a % b;
    assert (a / b + 1) * b == a / b * b + b;
  }

  /** A quotient is determined by where its multiples lie. */
  lemma QuotientIs(a: int, b: int, q: int)
    requires a >= 0 && b > 0 && q * b <= a < (q + 1) * b
    ensures a / b == q
  {
    Quotient(a, b);
    var p := a / b;
    if p < q {
      Times(p + 1, q, b);
    } else if q < p {
      Times(q + 1, p, b);
    }
  }

  // ---------------------------------------------------------------- the usable ticks

  lemma TickCount(spacing: int)
    requires spacing > 0
    ensures TruncatingDiv(TruncatingDiv(MAX_TICK, spacing) * spacing - TruncatingDiv(MIN_TICK, spacing) * spacing,
                          spacing) + 1 == 2 * Half(spacing) + 1
  {
    var h := Half(spacing);
    assert TruncatingDiv(MIN_TICK, spacing) == -h && TruncatingDiv(MAX_TICK, spacing) == h;
    assert h * spacing - (-h) * spacing == (2 * h) * spacing;
    Times(0, 2 * h, spacing);
    assert (2 * h + 1) * spacing == (2 * h) * spacing + spacing;
    QuotientIs((2 * h) * spacing, spacing, 2 * h);
  }

  /** Every positive spacing has a bound, and only those. */
  lemma BoundExists(spacing: int)
    ensures MaxLiquidityPerTick(spacing).Some? <==> spacing > 0
  {
    if spacing > 0 {
      TickCount(spacing);
    }
  }

  lemma Multiple(i: int, spacing: int)
    requires spacing > 0
    ensures MIN_TICK <= i * spacing <= MAX_TICK <==> -Half(spacing) <= i <= Half(spacing)
  {
    var h := Half(spacing);
    Quotient(MAX_TICK, spacing);
    if i > h {
      Times(h + 1, i, spacing);
    } else if i < -h {
      Times(i, -(h + 1), spacing);
      assert -(h + 1) * spacing == -((h + 1) * spacing);
    } else {
      Times(i, h, spacing);
      Times(-h, i, spacing);
      assert (-h) * spacing == -(h * spacing);
    }
  }

  lemma Divides(i: int, spacing: int)
    requires spacing > 0
    ensures i * spacing % spacing == 0
  {
    var q, r := i * spacing / spacing, i * spacing % spacing;
    assert i * spacing == q * spacing + r;
    assert (i - q) * spacing == i * spacing - q * spacing;
    if i - q >= 1 {
      Times(1, i - q, spacing);
    } else if i - q <= -1 {
      Times(i - q, -1, spacing);
    }
  }

  /** The ticks summed over are exactly the usable ones. */
  lemma UsableTicks(spacing: int, tick: int)
    requires spacing > 0
    ensures Usable(spacing, tick) <==> exists i :: -Half(spacing) <= i <= Half(spacing) && tick == i * spacing
  {
    if Usable(spacing, tick) {
      assert tick == tick / spacing * spacing;
      Multiple(tick / spacing, spacing);
    }
    if i :| -Half(spacing) <= i <= Half(spacing) && tick == i * spacing {
      Multiple(i, spacing);
      Divides(i, spacing);
    }
  }

  // ------------------------------------------------------------------- what it bounds

  lemma {:induction false} AtMost(liquidity: int -> nat, bound: nat, spacing: int, lo: int, hi: int)
    requires spacing > 0 && lo <= hi + 1
    requires forall i | lo <= i <= hi :: liquidity(i * spacing) <= bound
    ensures Assigned(liquidity, spacing, lo, hi) <= (hi - lo + 1) * bound
    decreases hi - lo
  {
    if lo <= hi {
      AtMost(liquidity, bound, spacing, lo, hi - 1);
      assert (hi - lo + 1) * bound == (hi - lo) * bound + bound;
    }
  }

  lemma {:induction false} Everywhere(liquidity: int -> nat, amount: nat, spacing: int, lo: int, hi: int)
    requires spacing > 0 && lo <= hi + 1
    requires forall tick :: liquidity(tick) == amount
    ensures Assigned(liquidity, spacing, lo, hi) == (hi - lo + 1) * amount
    decreases hi - lo
  {
    if lo <= hi {
      Everywhere(liquidity, amount, spacing, lo, hi - 1);
      assert (hi - lo + 1) * amount == (hi - lo) * amount + amount;
    }
  }

  lemma BoundIs(spacing: int, bound: nat)
    requires MaxLiquidityPerTick(spacing) == Some(bound)
    ensures spacing > 0 && bound * (2 * Half(spacing) + 1) <= MAX_U128 < (bound + 1) * (2 * Half(spacing) + 1)
  {
    TickCount(spacing);
    Quotient(MAX_U128, 2 * Half(spacing) + 1);
  }

  /** Any assignment within the bound fits in 128 bits. */
  lemma BoundIsSafe(spacing: int, bound: nat, liquidity: int -> nat)
    requires MaxLiquidityPerTick(spacing) == Some(bound)
    requires forall tick | Usable(spacing, tick) :: liquidity(tick) <= bound
    ensures TotalLiquidity(liquidity, spacing) <= MAX_U128
  {
    BoundIs(spacing, bound);
    hide MaxLiquidityPerTick, Half, Usable, Assigned;
    var h := Half(spacing);
    forall i | -h <= i <= h ensures liquidity(i * spacing) <= bound {
      UsableTicks(spacing, i * spacing);
    }
    AtMost(liquidity, bound, spacing, -h, h);
    assert (h - (-h) + 1) * bound == bound * (2 * h + 1);
  }

  /** The bound is the largest: one more on every usable tick overflows. */
  lemma BoundIsLargest(spacing: int, bound: nat, liquidity: int -> nat)
    requires MaxLiquidityPerTick(spacing) == Some(bound)
    requires forall tick :: liquidity(tick) == bound + 1
    ensures TotalLiquidity(liquidity, spacing) > MAX_U128
  {
    BoundIs(spacing, bound);
    hide MaxLiquidityPerTick, Half, Assigned;
    var h := Half(spacing);
    Everywhere(liquidity, bound + 1, spacing, -h, h);
    assert (h - (-h) + 1) * (bound + 1) == (bound + 1) * (2 * h + 1);
  }

  /** A wider spacing allows at least as much per tick. */
  lemma BoundIsMonotone(narrow: int, wide: int)
    requires 0 < narrow <= wide
    ensures MaxLiquidityPerTick(narrow).Some? && MaxLiquidityPerTick(wide).Some?
    ensures MaxLiquidityPerTick(narrow).value <= MaxLiquidityPerTick(wide).value
  {
    TickCount(narrow);
    TickCount(wide);
    QuotientShrinks(MAX_TICK, narrow, wide);
    QuotientShrinks(MAX_U128, 2 * Half(wide) + 1, 2 * Half(narrow) + 1);
  }

  lemma QuotientShrinks(a: int, b: int, c: int)
    requires a >= 0 && 0 < b <= c
    ensures a / c <= a / b
  {
    Quotient(a, b);
    Quotient(a, c);
    var x, y := a / c, a / b;
    if y < x {
      Times(y + 1, x, b);
      Times(b, c, x);
    }
  }
}
