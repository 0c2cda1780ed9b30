/**
 * The orifice-drain (Torricelli) flow model shared by the older volume
 * gauges: water leaves a tank of cross-section `area` (cm^2) through a valve,
 * and after t seconds the level has dropped by |(t/k)^2 - 2 (t/k) sqrt(h0)|
 * centimetres, where h0 is the starting height and k bundles the tank area,
 * the valve area, the discharge coefficient and gravity.
 *
 * The square root is Go's `math.Pow(h, 0.5)`. It is a parameter `root` here;
 * only the lemmas that need its defining property assume `IsSqrt(root)`.
 */
module Torricelli {
  import opened Wrappers

  /** The gravity constant of getK, in cm/s^2. */
  const Gravity: real := 9.806 * 100.0

  /** What getK computes: the drain constant k and the tank's cross-section (cm^2). */
  datatype Orifice = Orifice(k: real, area: real)

  /** The valve's cross-section times its discharge coefficient. */
  function ValveFlow(valveRadius: real, coefficient: real, pi: real): real {
    pi * valveRadius * valveRadius * coefficient
  }

  /**
   * getK: k = (A_tank * sqrt(2/g)) / (A_valve * coefficient) with A = pi r^2.
   * The value of pi is a parameter; it cancels out of k. A zero valve radius
   * or coefficient gives Go a non-finite k, modelled as None.
   */
  function GetK(tankRadius: real, valveRadius: real, coefficient: real, pi: real, root: real -> real): (r: Option<Orifice>)
    ensures r.None? <==> ValveFlow(valveRadius, coefficient, pi) == 0.0
    ensures r.Some? ==> r.value.area == pi * tankRadius * tankRadius
    ensures r.Some? ==> r.value.k * valveRadius * valveRadius * coefficient == tankRadius * tankRadius * root(2.0 / Gravity)
  {
    var tankArea := pi * tankRadius * tankRadius;
    var valveArea := pi * valveRadius * valveRadius;
    if valveArea * coefficient == 0.0 then None
    else
      var k := (tankArea * root(2.0 / Gravity)) / (valveArea * coefficient);
      assert k * (valveArea * coefficient) == tankArea * root(2.0 / Gravity);
      Some(Orifice(k, tankArea))
  }

  function Abs(x: real): (r: real)
    ensures 0.0 <= r && (r == x || r == -x)
  {
    if x < 0.0 then -x else x
  }

  /** `root` is the non-negative square root on the non-negative reals. */
  ghost predicate IsSqrt(root: real -> real) {
    forall x :: 0.0 <= x ==> 0.0 <= root(x) && root(x) * root(x) == x
  }

  lemma SquareGrows(a: real, b: real)
    requires 0.0 <= a < b
    ensures a * a < b * b
  {
    assert 0.0 < (b - a) * b == b * b - a * b;
    assert 0.0 <= a * (b - a) == a * b - a * a;
  }

  /** A square root is determined by its square. */
  lemma SqrtIs(root: real -> real, x: real, r: real)
    requires IsSqrt(root) && 0.0 <= r && r * r == x
    ensures root(x) == r
  {
    var q := root(x);
    assert 0.0 <= q && q * q == x;
    if q < r {
      SquareGrows(q, r);
    } else if r < q {
      SquareGrows(r, q);
    }
  }

  /** A square root bounds every non-negative number whose square it does not exceed. */
  lemma SqrtAtLeast(root: real -> real, x: real, r: real)
    requires IsSqrt(root) && 0.0 <= r && r * r <= x
    ensures r <= root(x)
  {
    var q := root(x);
    assert 0.0 <= q && q * q == x;
    if q < r {
      SquareGrows(q, r);
    }
  }

  /** The height (cm) of `volume` cm^3 of water in a tank of cross-section `area` cm^2. */
  function Height(area: real, volume: real): real
    requires area != 0.0
  {
    volume / area
  }

  /**
   * The litres that have left a tank that held `start` cm^3 when the valve
   * opened, `elapsed` seconds later. A negative height makes Go's square
   * root NaN, which the code turns into "no flow". A zero k (a zero tank
   * radius) gives only infinities and NaN in Go, which also end as no flow.
   */
  function Drained(area: real, k: real, root: real -> real, start: real, elapsed: real): (litres: real)
    ensures 0.0 <= area ==> 0.0 <= litres
    ensures elapsed == 0.0 ==> litres == 0.0
    ensures start < 0.0 && 0.0 < area ==> litres == 0.0
  {
    if area == 0.0 || k == 0.0 then 0.0
    else
      var height := Height(area, start);
      if height < 0.0 then 0.0
      else
        var x := elapsed / k;
        area * Abs(x * x - 2.0 * x * root(height)) / 1000.0
  }

  /** The elapsed time at which the modelled level reaches the valve: (t/k)^2 = h0. */
  function EmptyTime(area: real, k: real, root: real -> real, start: real): real
    requires area != 0.0
  {
    k * root(Height(area, start))
  }

  /** At the moment the tank is empty, exactly the volume it held has left it. */
  lemma EmptiesAtEmptyTime(area: real, k: real, root: real -> real, start: real)
    requires IsSqrt(root) && 0.0 < area && k != 0.0 && 0.0 <= start
    ensures Drained(area, k, root, start, EmptyTime(area, k, root, start)) == start / 1000.0
  {
    var h := Height(area, start);
    var r := root(h);
    assert 0.0 <= r && r * r == h;
    var x := EmptyTime(area, k, root, start) / k;
    assert x == r;
    assert x * x - 2.0 * x * r == -h;
    assert area * h == start;
  }

  /**
   * Until the tank is empty, the drained volume only grows with time
   * (for a positive k, which is what a real valve gives).
   */
  lemma DrainedGrowsUntilEmpty(area: real, k: real, root: real -> real, start: real, t1: real, t2: real)
    requires IsSqrt(root) && 0.0 < area && 0.0 < k && 0.0 <= start
    requires 0.0 <= t1 <= t2 <= EmptyTime(area, k, root, start)
    ensures Drained(area, k, root, start, t1) <= Drained(area, k, root, start, t2)
  {
    var r := root(Height(area, start));
    var x1, x2 := t1 / k, t2 / k;
    ScaledOrder(t1, t2, k, r);
    var d1 := DrainedBeforeEmpty(area, k, root, start, t1, x1, r);
    var d2 := DrainedBeforeEmpty(area, k, root, start, t2, x2, r);
    DropGrows(r, x1, x2);
    var a1, a2 := PositiveScale(area, d1, d2);
  }

  lemma ScaledOrder(t1: real, t2: real, k: real, r: real)
    requires 0.0 < k && 0.0 <= t1 <= t2 <= k * r
    ensures 0.0 <= t1 / k <= t2 / k <= r
  {
  }

  /** Before the empty time the level drop is 2xr - x^2, with x = t/k and r = sqrt(h0). */
  lemma DrainedBeforeEmpty(area: real, k: real, root: real -> real, start: real, t: real, x: real, r: real)
    returns (drop: real)
    requires 0.0 < area && k != 0.0 && 0.0 <= start
    requires x == t / k && r == root(Height(area, start)) && 0.0 <= x <= r
    ensures drop == 2.0 * x * r - x * x
    ensures Drained(area, k, root, start, t) == area * drop / 1000.0
  {
    drop := 2.0 * x * r - x * x;
    assert x * x <= x * r;
    assert Abs(x * x - 2.0 * x * r) == drop;
  }

  lemma DropGrows(r: real, x1: real, x2: real)
    requires 0.0 <= x1 <= x2 <= r
    ensures 2.0 * x1 * r - x1 * x1 <= 2.0 * x2 * r - x2 * x2
  {
    assert (2.0 * x2 * r - x2 * x2) - (2.0 * x1 * r - x1 * x1) == (x2 - x1) * (2.0 * r - x1 - x2);
    assert 0.0 <= (x2 - x1) * (2.0 * r - x1 - x2);
  }

  lemma PositiveScale(area: real, a: real, b: real) returns (sa: real, sb: real)
    requires 0.0 < area && a <= b
    ensures sa == area * a / 1000.0 && sb == area * b / 1000.0 && sa <= sb
  {
    assert area * a <= area * b;
    sa, sb := area * a / 1000.0, area * b / 1000.0;
  }

  /** The scaled time x = t/k at t = (s - s2) k, and the drop polynomial there. */
  lemma ScaledInverseTime(s: real, s2: real, k: real) returns (x: real)
    requires k != 0.0
    ensures x == ((s - s2) * k) / k && x == s - s2
    ensures x * x - 2.0 * x * s == s2 * s2 - s * s
  {
    x := s - s2;
    assert (x * k) / k == x;
  }

  lemma HeightsOrdered(area: real, start: real, drained: real) returns (h: real, dh: real)
    requires 0.0 < area && 0.0 <= drained <= start
    ensures h == Height(area, start) && dh == Height(area, drained)
    ensures 0.0 <= dh <= h && area * dh == drained
  {
    h, dh := Height(area, start), Height(area, drained);
    assert area * h == start && area * dh == drained;
  }

  /** Drained in terms of the level drop the formula computes. */
  lemma DrainedByDrop(area: real, k: real, root: real -> real, start: real, t: real, drop: real)
    requires 0.0 < area && k != 0.0 && 0.0 <= Height(area, start)
    requires drop == Abs((t / k) * (t / k) - 2.0 * (t / k) * root(Height(area, start)))
    ensures Drained(area, k, root, start, t) == area * drop / 1000.0
  {
  }

  lemma DropAtInverseTime(s: real, s2: real, h: real, dh: real, k: real)
    requires 0.0 <= dh && s * s == h && s2 * s2 == h - dh && k != 0.0
    ensures Abs((((s - s2) * k) / k) * (((s - s2) * k) / k) - 2.0 * (((s - s2) * k) / k) * s) == dh
  {
    var x := ScaledInverseTime(s, s2, k);
  }

  /**
   * The seconds it takes to drain `drained` cm^3 out of a tank that holds
   * `start` cm^3. None stands for the NaN or infinity Go computes when a
   * height is negative or the tank has no area.
   */
  function DrainTime(area: real, k: real, root: real -> real, start: real, drained: real): (t: Option<real>)
    ensures 0.0 < area && 0.0 <= drained <= start ==> t.Some?
    ensures drained == 0.0 && t.Some? ==> t.value == 0.0
  {
    if area == 0.0 then None
    else
      var height := Height(area, start);
      var h2 := height - Height(area, drained);
      if height < 0.0 || h2 < 0.0 then None
      else Some((root(height) - root(h2)) * k)
  }

  /**
   * Draining for (sqrt(h0) - sqrt(h0 - dh)) * k seconds, where dh is the
   * height of `drained` cm^3, takes exactly `drained` cm^3 (as litres) out.
   */
  lemma DrainTimeInverse(area: real, k: real, root: real -> real, start: real, drained: real) returns (t: real)
    requires IsSqrt(root) && 0.0 < area && k != 0.0 && 0.0 <= drained <= start
    ensures DrainTime(area, k, root, start, drained) == Some(t)
    ensures Drained(area, k, root, start, t) == drained / 1000.0
  {
    t := DrainTimeValue(area, k, root, start, drained);
    DrainedAtInverseTime(area, k, root, start, drained, t);
  }

  lemma DrainedAtInverseTime(area: real, k: real, root: real -> real, start: real, drained: real, t: real)
    requires IsSqrt(root) && 0.0 < area && k != 0.0 && 0.0 <= drained <= start
    requires t == (root(Height(area, start)) - root(Height(area, start) - Height(area, drained))) * k
    ensures Drained(area, k, root, start, t) == drained / 1000.0
  {
    var h, dh := HeightsOrdered(area, start, drained);
    var s := RootOf(root, h);
    var s2 := RootOf(root, h - dh);
    DrainedAtRoots(area, k, root, start, t, s, s2, dh);
    ThousandthOf(area * dh, drained);
  }

  /** The defining property of `root` at one point. */
  lemma RootOf(root: real -> real, x: real) returns (r: real)
    requires IsSqrt(root) && 0.0 <= x
    ensures r == root(x) && 0.0 <= r && r * r == x
  {
    r := root(x);
  }

  lemma ThousandthOf(a: real, b: real)
    requires a == b
    ensures a / 1000.0 == b / 1000.0
  {
  }

  /** Drained at t = (s - s2) k, where s and s2 are the roots of h0 and h0 - dh. */
  lemma DrainedAtRoots(area: real, k: real, root: real -> real, start: real, t: real, s: real, s2: real, dh: real)
    requires 0.0 < area && k != 0.0 && 0.0 <= Height(area, start) && 0.0 <= dh
    requires s == root(Height(area, start)) && s * s == Height(area, start) && s2 * s2 == Height(area, start) - dh
    requires t == (s - s2) * k
    ensures Drained(area, k, root, start, t) == area * dh / 1000.0
  {
    DropAtInverseTime(s, s2, Height(area, start), dh, k);
    DrainedByDrop(area, k, root, start, t, dh);
  }

  /** DrainTime at the two heights, spelled out. */
  lemma DrainTimeValue(area: real, k: real, root: real -> real, start: real, drained: real) returns (t: real)
    requires 0.0 < area && 0.0 <= drained <= start
    ensures t == (root(Height(area, start)) - root(Height(area, start) - Height(area, drained))) * k
    ensures DrainTime(area, k, root, start, drained) == Some(t)
  {
    var h, dh := HeightsOrdered(area, start, drained);
    t := (root(h) - root(h - dh)) * k;
    assert DrainTime(area, k, root, start, drained).Some?;
    assert DrainTime(area, k, root, start, drained).value == t;
  }

  /**
   * The same flow for a start volume in litres, converted to cm^3 before the
   * height is taken, as brewgadgets/mash.go does when it passes
   * `HLTVolume * 1000` to GetVolume. The result is in litres.
   */
  function DrainedLitres(area: real, k: real, root: real -> real, startLitres: real, elapsed: real): (litres: real)
    ensures 0.0 <= area ==> 0.0 <= litres
    ensures elapsed == 0.0 ==> litres == 0.0
  {
    Drained(area, k, root, startLitres * 1000.0, elapsed)
  }

  /** The same flow with start volume and result both in millilitres (cm^3). */
  function DrainedMillilitres(area: real, k: real, root: real -> real, startMl: real, elapsed: real): (ml: real)
    ensures 0.0 <= area ==> 0.0 <= ml
    ensures elapsed == 0.0 ==> ml == 0.0
  {
    Drained(area, k, root, startMl, elapsed) * 1000.0
  }

  /** With consistent units, an emptied tank hands over everything it held (litres). */
  lemma DrainedLitresEmptiesTank(area: real, k: real, root: real -> real, startLitres: real)
    requires IsSqrt(root) && 0.0 < area && k != 0.0 && 0.0 <= startLitres
    ensures DrainedLitres(area, k, root, startLitres, EmptyTime(area, k, root, startLitres * 1000.0)) == startLitres
  {
    EmptiesAtEmptyTime(area, k, root, startLitres * 1000.0);
  }

  /** With consistent units, an emptied tank hands over everything it held (millilitres). */
  lemma DrainedMillilitresEmptiesTank(area: real, k: real, root: real -> real, startMl: real)
    requires IsSqrt(root) && 0.0 < area && k != 0.0 && 0.0 <= startMl
    ensures DrainedMillilitres(area, k, root, startMl, EmptyTime(area, k, root, startMl)) == startMl
  {
    EmptiesAtEmptyTime(area, k, root, startMl);
  }
}
