/**
 * Small value rules behind the launcher pages' controls: the frame-rate clamp, the background-video
 * volume glyph, and the banner pager's rotation.
 */
module UiRules {

  function Distance(a: int, b: int): nat {
    if a < b then b - a else a - b
  }

  /** `Math.Clamp(value, min, max)` */
  function Clamp(value: int, min: int, max: int): (r: int)
    requires min <= max
    ensures min <= r <= max
    ensures min <= value <= max ==> r == value
    ensures forall x :: min <= x <= max ==> Distance(r, value) <= Distance(x, value)
  {
    if value < min then min else if value > max then max else value
  }

  /** Star Rail frame-rate bounds used by the newer launcher page. */
  const StarRailFpsMin := 60
  const StarRailFpsMax := 320

  /** Frame-rate bounds used by the older launcher page. */
  const GameFpsMin := 60
  const GameFpsMax := 120

  /** Segoe glyphs Volume0 to Volume3 (speaker with zero to three waves). */
  const Volume0Glyph := '\U{E992}'
  const Volume1Glyph := '\U{E993}'
  const Volume2Glyph := '\U{E994}'
  const Volume3Glyph := '\U{E995}'

  /** How many waves a volume glyph shows. */
  function GlyphLevel(glyph: char): int {
    if glyph == Volume3Glyph then 3
    else if glyph == Volume2Glyph then 2
    else if glyph == Volume1Glyph then 1
    else 0
  }

  /** `VideoBgVolumeButtonIcon`: above 66, above 33, above 1, otherwise. */
  function VolumeGlyph(volume: int): (glyph: char)
    ensures glyph in {Volume0Glyph, Volume1Glyph, Volume2Glyph, Volume3Glyph}
    ensures glyph == Volume0Glyph <==> volume <= 1
    ensures glyph == Volume1Glyph <==> 1 < volume <= 33
    ensures glyph == Volume2Glyph <==> 33 < volume <= 66
    ensures glyph == Volume3Glyph <==> volume > 66
  {
    if volume > 66 then Volume3Glyph
    else if volume > 33 then Volume2Glyph
    else if volume > 1 then Volume1Glyph
    else Volume0Glyph
  }

  /** A louder volume never shows fewer waves. */
  lemma VolumeGlyphMonotone(a: int, b: int)
    requires a <= b
    ensures GlyphLevel(VolumeGlyph(a)) <= GlyphLevel(VolumeGlyph(b))
  {
  }

  function Abs(x: int): nat {
    if x < 0 then -x else x
  }

  /** C#'s `%` on `int`: the remainder takes the dividend's sign. */
  function TruncatedRemainder(a: int, b: int): (r: int)
    requires b != 0
    ensures Abs(r) < Abs(b)
    ensures a >= 0 ==> r >= 0
    ensures a <= 0 ==> r <= 0
    ensures 0 <= a < Abs(b) ==> r == a
  {
    var m := Abs(b);
    if a >= 0 then
      if a < m then
        ModUnique(a, m, 0, a);
        a % m
      else a % m
    else -((-a) % m)
  }

  /**
   * C#'s `%` differs from the dividend by a multiple of the divisor; with the bounds and the sign
   * above this fixes its value.
   */
  lemma TruncatedRemainderCongruent(a: int, b: int)
    requires b != 0
    ensures (a - TruncatedRemainder(a, b)) % Abs(b) == 0
  {
    var m := Abs(b);
    if a >= 0 {
      RemainderCongruent(a, m);
    } else {
      RemainderCongruent(-a, m);
      assert a - TruncatedRemainder(a, b) == -(-a) + (-a) % m;
    }
  }

  /** A natural and its remainder, and their negations, differ by a multiple of the divisor. */
  lemma RemainderCongruent(n: int, m: int)
    requires n >= 0 && m > 0
    ensures (n - n % m) % m == 0
    ensures (-n + n % m) % m == 0
  {
    var k, r := n / m, n % m;
    assert n == k * m + r;
    ModUnique(n - r, m, k, 0);
    assert -(k * m) == (-k) * m;
    ModUnique(-n + r, m, -k, 0);
  }

  /** The banner timer's step: `(SelectedPageIndex + 1) % NumberOfPages`. */
  function NextPageIndex(index: int, pages: int): (next: int)
    requires pages != 0
    ensures index >= -1 && pages > 0 ==> 0 <= next < pages
  {
    TruncatedRemainder(index + 1, pages)
  }

  /** The page index after `ticks` timer steps. */
  function Advance(index: int, pages: int, ticks: nat): int
    requires pages != 0
    decreases ticks
  {
    if ticks == 0 then index else NextPageIndex(Advance(index, pages, ticks - 1), pages)
  }

  /** From a page in range, `k` steps land on page `(index + k) mod pages`. */
  lemma {:induction false} AdvanceIsModular(index: int, pages: int, ticks: nat)
    requires 0 <= index < pages
    ensures Advance(index, pages, ticks) == (index + ticks) % pages
    decreases ticks
  {
    if ticks > 0 {
      AdvanceIsModular(index, pages, ticks - 1);
      var prev := (index + ticks - 1) % pages;
      assert 0 <= prev < pages;
      ModSuccessor(index + ticks - 1, pages);
    }
  }

  /** Splitting a product over a sum (a helper for the modular arithmetic below). */
  lemma Distrib(a: int, d: int, p: int)
    ensures (a + d) * p == a * p + d * p
  {
  }

  lemma {:induction false} MulAtLeast(d: int, p: int)
    requires d >= 1 && p > 0
    ensures d * p >= p
    decreases d
  {
    if d > 1 {
      MulAtLeast(d - 1, p);
      Distrib(d - 1, 1, p);
    }
  }

  lemma MulStep(a: int, b: int, p: int)
    requires p > 0 && a < b
    ensures a * p + p <= b * p
  {
    Distrib(a, b - a, p);
    MulAtLeast(b - a, p);
  }

  /** The remainder is the unique r in [0, p) with x == q * p + r. */
  lemma ModUnique(x: int, p: int, q: int, r: int)
    requires p > 0 && 0 <= r < p && x == q * p + r
    ensures x % p == r
  {
    var q', r' := x / p, x % p;
    assert x == q' * p + r';
    if q' < q {
      MulStep(q', q, p);
    } else if q < q' {
      MulStep(q, q', p);
    }
  }

  lemma ModSuccessor(x: nat, pages: int)
    requires pages > 0
    ensures (x % pages + 1) % pages == (x + 1) % pages
  {
    var q, r := x / pages, x % pages;
    assert x == q * pages + r;
    if r + 1 < pages {
      ModUnique(r + 1, pages, 0, r + 1);
      ModUnique(x + 1, pages, q, r + 1);
    } else {
      ModUnique(r + 1, pages, 1, 0);
      Distrib(q, 1, pages);
      ModUnique(x + 1, pages, q + 1, 0);
    }
  }

  /** After as many ticks as there are pages the carousel is back where it started. */
  lemma FullRotation(index: int, pages: int)
    requires 0 <= index < pages
    ensures Advance(index, pages, pages) == index
  {
    AdvanceIsModular(index, pages, pages);
    Distrib(1, 0, pages);
    ModUnique(index + pages, pages, 1, index);
  }
}
