/** The resource engine (src/engine/resources.ts): mineral stocks, mining yield, number notation. */
module Resources {
  import opened Types
  import opened Minerals

  /** `createMineralState(unlocked)`: an empty, sound stock with the given gate. */
  function CreateMineralState(unlocked: bool): (s: Stock)
    ensures s.amount == 0.0 && s.total == 0.0 && s.unlocked == unlocked
    ensures SoundStock(s)
  {
    Stock(0.0, 0.0, unlocked)
  }

  /**
   * `addMineral(state, gain)`: the same gain lands in `amount` and `total`, so
   * the spent part `total - amount` is unchanged and a non-negative gain keeps a
   * sound stock sound.
   */
  function AddMineral(s: Stock, gain: real): (r: Stock)
    ensures r.amount - s.amount == gain && r.total - s.total == gain
    ensures r.total - r.amount == s.total - s.amount
    ensures r.unlocked == s.unlocked
    ensures SoundStock(s) && gain >= 0.0 ==> SoundStock(r)
  {
    s.(amount := s.amount + gain, total := s.total + gain)
  }

  /** Crediting two gains one after the other is crediting their sum. */
  lemma AddMineralTwice(s: Stock, a: real, b: real)
    ensures AddMineral(AddMineral(s, a), b) == AddMineral(s, a + b)
  {
  }

  /**
   * `mineMineral(id, power)`: one tap yields `power × baseRate`; since every base
   * rate lies in (0, 1], a non-negative power yields between 0 and `power`, and
   * silicon yields exactly `power`.
   */
  function MineMineral(id: MineralId, power: real): (r: real)
    ensures power >= 0.0 ==> 0.0 <= r <= power
    ensures power > 0.0 ==> r > 0.0
    ensures id == Silicon ==> r == power
  {
    power * Mineral(id).baseRate
  }

  /** With mining power 1, a tap on silicon yields exactly 1. */
  lemma MiningSiliconYieldsOne()
    ensures MineMineral(Silicon, 1.0) == 1.0
  {
  }

  /** Scaling distributes over a sum. */
  lemma ScaledSum(x: real, y: real, k: real)
    ensures k * x + y * k == k * (x + y)
    ensures x * k + y * k == (x + y) * k
  {
  }

  /** A product scaled at the end is the product scaled from outside. */
  lemma Rescale(x: real, k: real)
    ensures x * k == k * (x * 1.0)
  {
  }

  /**
   * Adding `k` to a non-negative factor `a` of `f × a × e`, where only a positive
   * `a` counts, adds `f × k × e`.
   */
  lemma CreditedProduct(f: real, a: real, k: real, e: real)
    requires a >= 0.0 && k >= 0.0
    ensures (if a + k > 0.0 then f * (a + k) * e else 0.0) == (if a > 0.0 then f * a * e else 0.0) + f * k * e
  {
    if a + k > 0.0 {
      assert f * (a + k) == f * a + f * k;
      assert (f * a + f * k) * e == f * a * e + f * k * e;
      if a == 0.0 {
        assert f * a == 0.0;
      }
    } else {
      assert k == 0.0;
      assert f * k == 0.0;
    }
  }

  /** The product of two positive numbers is positive. */
  lemma PositiveProduct(x: real, y: real)
    requires x > 0.0 && y > 0.0
    ensures x * y > 0.0
  {
  }

  /** The product of two non-negative numbers is non-negative. */
  lemma NonNegativeProduct(x: real, y: real)
    requires x >= 0.0 && y >= 0.0
    ensures x * y >= 0.0
  {
  }

  /** `1000^k` */
  function Thousands(k: nat): (r: real)
    ensures r >= 1.0
  {
    if k == 0 then 1.0 else 1000.0 * Thousands(k - 1)
  }

  /**
   * The notation `formatNumber` picks: plain digits (one fraction digit below 10),
   * a suffix of rank 1..5 (K, M, B, T, P) showing `n / 1000^rank`, or exponential form.
   */
  datatype Notation = Plain(fractionDigits: nat) | Suffixed(rank: nat) | Exponential

  /** The suffixes of ranks 1..5. */
  const NumberSuffixes: seq<string> := ["K", "M", "B", "T", "P"]

  /**
   * The unit-selection part of `formatNumber(n)`: below 1000 plain, then one
   * suffix per further factor of 1000 (the shown mantissa lies in [1, 1000)),
   * and exponential form from 10^18 up.
   */
  function NumberNotation(n: real): (r: Notation)
    ensures r.Plain? <==> n < 1000.0
    ensures r.Plain? ==> (r.fractionDigits == 1 <==> n < 10.0) && r.fractionDigits <= 1
    ensures r.Suffixed? ==>
              && 1 <= r.rank <= |NumberSuffixes|
              && Thousands(r.rank) <= n < 1000.0 * Thousands(r.rank)
    ensures r.Exponential? <==> n >= Thousands(6)
  {
    if n < 1000.0 then Plain(if n < 10.0 then 1 else 0)
    else if n < 1_000_000.0 then Suffixed(1)
    else if n < 1_000_000_000.0 then Suffixed(2)
    else if n < 1_000_000_000_000.0 then Suffixed(3)
    else if n < 1_000_000_000_000_000.0 then Suffixed(4)
    else if n < 1_000_000_000_000_000_000.0 then Suffixed(5)
    else Exponential
  }
}
