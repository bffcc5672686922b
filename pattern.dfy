/** The pure arithmetic of the watermark background in
    FreshDocs/src/theme/fresh_background.js: constants, the theme colour,
    the spacer and unit text, the repeat count, the tile width, the device
    pixel ratio and the rows the draw loop visits. */
module FreshPattern {
  import opened Wrappers
  import opened Seqs
  import opened Decimal

  const WORD: string := "Fresh"
  const WORD_SPACING: real := 1.4
  const LINE_STEP: int := 40
  const TILE_H: int := 200
  const APPROX_TILE_W: real := 320.0
  const ANGLE_DEG: int := -32

  /** The smallest repeat count of the unit along one line. */
  const MIN_REPEAT: nat := 8

  const DARK_FILL: string := "rgba(255, 255, 255, 0.4)"
  const LIGHT_FILL: string := "rgba(199, 199, 199, 0.8)"

  /** The font given to the probe context and copied to the drawing context:
      bold, `FONT_PX` = 26 pixels. */
  const FONT: string := "700 26px system-ui, -apple-system, Segoe UI, Roboto, Helvetica, Arial, \"PingFang SC\",\"Hiragino Sans GB\",\"Noto Sans CJK SC\",\"Microsoft YaHei\", sans-serif"

  /** `Math.round`: the nearest integer, halves rounded up. */
  function Round(x: real): (r: int)
    ensures x - 0.5 < r as real <= x + 0.5
  {
    (x + 0.5).Floor
  }

  /** `Math.max` of two integers. */
  function Max(a: int, b: int): (m: int)
    ensures m >= a && m >= b && (m == a || m == b)
  {
    if a >= b then a else b
  }

  /** `Math.max` of two reals. */
  function MaxReal(a: real, b: real): (m: real)
    ensures m >= a && m >= b && (m == a || m == b)
  {
    if a >= b then a else b
  }

  /** The fill colour for the current `data-theme` attribute of the root
      element (`None` when the attribute is absent). */
  function ColorByTheme(theme: Option<string>): (fill: string)
    ensures fill == DARK_FILL <==> theme == Some("dark")
    ensures fill == LIGHT_FILL <==> theme != Some("dark")
  {
    if theme == Some("dark") then DARK_FILL else LIGHT_FILL
  }

  /** The number of blanks after the word: the rounded spacing factor, at
      least one (fresh_background.js:26). */
  function SpacerLength(): (n: nat)
    ensures n >= 1
  {
    Max(1, Round(WORD_SPACING)) as nat
  }

  /** The blanks between two words (fresh_background.js:26). */
  function Spacer(): (s: string)
    ensures |s| == SpacerLength() >= 1
    ensures forall i :: 0 <= i < |s| ==> s[i] == ' '
  {
    RepeatOne(' ', SpacerLength());
    Repeat(" ", SpacerLength())
  }

  /** The word followed by its spacer: one repetition along a line
      (fresh_background.js:27). */
  function Unit(): (u: string)
    ensures |u| == |WORD| + SpacerLength()
    ensures u[..|WORD|] == WORD
    ensures forall i :: |WORD| <= i < |u| ==> u[i] == ' '
  {
    WORD + Spacer()
  }

  /** With a spacing factor of 1.4 the spacer is exactly one blank, and the unit is "Fresh ". */
  lemma UnitIsWordAndOneBlank()
    ensures SpacerLength() == 1 && Spacer() == " "
    ensures Unit() == "Fresh "
    ensures Unit()[..|WORD|] == WORD
  {
    assert Round(WORD_SPACING) == 1;
    assert Repeat(" ", 1) == Repeat(" ", 0) + " ";
  }

  /** The number of units on a line (fresh_background.js:29): the target
      width divided by the measured unit width `unitW`, rounded, and at least 8. */
  function RepeatCount(unitW: real): (k: nat)
    requires unitW > 0.0
    ensures k >= MIN_REPEAT
    ensures Round(APPROX_TILE_W / unitW) >= MIN_REPEAT as int ==> k == Round(APPROX_TILE_W / unitW)
    ensures Round(APPROX_TILE_W / unitW) < MIN_REPEAT as int ==> k == MIN_REPEAT
  {
    Max(MIN_REPEAT, Round(APPROX_TILE_W / unitW)) as nat
  }

  lemma QuotientTimesDivisor(a: real, u: real)
    requires u > 0.0
    ensures (a / u) * u == a
  {
  }

  /** `k` within half of `q = APPROX_TILE_W / u` gives `k * u` within half of `u` of the target. */
  lemma NearQuotient(k: real, q: real, u: real)
    requires u > 0.0 && q * u == APPROX_TILE_W
    requires q - 0.5 < k <= q + 0.5
    ensures APPROX_TILE_W - u / 2.0 < k * u <= APPROX_TILE_W + u / 2.0
  {
    var ku, qu := k * u, q * u;
    assert ku > qu - u / 2.0 by { assert ku - (qu - u / 2.0) == (k - q + 0.5) * u; }
    assert ku <= qu + u / 2.0 by { assert qu + u / 2.0 - ku == (q + 0.5 - k) * u; }
  }

  /** When the floor of 8 does not engage, the `k` units span the requested
      width to within half a unit. */
  lemma {:induction false} TileApproximatesTarget(unitW: real)
    requires unitW > 0.0
    requires Round(APPROX_TILE_W / unitW) >= MIN_REPEAT as int
    ensures APPROX_TILE_W - unitW / 2.0 < RepeatCount(unitW) as real * unitW <= APPROX_TILE_W + unitW / 2.0
  {
    QuotientTimesDivisor(APPROX_TILE_W, unitW);
    NearQuotient(RepeatCount(unitW) as real, APPROX_TILE_W / unitW, unitW);
  }

  /** A unit that fits 8.5 times into the target is at most 320 / 8.5 wide. */
  lemma NarrowUnit(u: real)
    requires u > 0.0 && APPROX_TILE_W / u >= 8.5
    ensures u <= APPROX_TILE_W / 8.5
  {
    var q := APPROX_TILE_W / u;
    QuotientTimesDivisor(APPROX_TILE_W, u);
    assert 8.5 * u <= q * u by { assert q * u - 8.5 * u == (q - 8.5) * u; }
  }

  /** A unit that fits fewer than 8.5 times into the target is wider than 320 / 8.5. */
  lemma BroadUnit(u: real)
    requires u > 0.0 && APPROX_TILE_W / u < 8.5
    ensures u > APPROX_TILE_W / 8.5
  {
    var q := APPROX_TILE_W / u;
    QuotientTimesDivisor(APPROX_TILE_W, u);
    assert 8.5 * u > q * u by { assert 8.5 * u - q * u == (8.5 - q) * u; }
  }

  /** Whatever the measured width, the `k` units of a line are wider than
      301 pixels: either the floor does not engage and the line is within
      half a narrow unit of 320, or it does and 8 broad units exceed 301. */
  lemma {:induction false} RepeatedUnitIsWide(unitW: real)
    requires unitW > 0.0
    ensures RepeatCount(unitW) as real * unitW > 301.0
  {
    if Round(APPROX_TILE_W / unitW) > 8 {
      TileApproximatesTarget(unitW);
      NarrowUnit(unitW);
    } else {
      BroadUnit(unitW);
      assert RepeatCount(unitW) as real * unitW == 8.0 * unitW;
    }
  }

  /** The tile width (fresh_background.js:30): the rounded width of the line of `k` units. */
  function TileWidth(unitW: real): (w: nat)
    requires unitW > 0.0
    ensures w >= 301
  {
    RepeatedUnitIsWide(unitW);
    Round(RepeatCount(unitW) as real * unitW)
  }

  /** A measured unit width of 50 gives round(320 / 50) = 6, so the floor
      engages: 8 repetitions and a 400-pixel tile. */
  lemma FloorExample()
    ensures RepeatCount(50.0) == 8 && TileWidth(50.0) == 400
  {
    assert APPROX_TILE_W / 50.0 == 6.4;
    assert Round(6.4) == 6;
    assert Round(400.0) == 400;
  }

  /** The device pixel ratio used for the tile (fresh_background.js:32): the
      reported ratio, clamped below at 1; `None` is an undefined ratio, and a
      ratio of 0 is falsy and also becomes 1. */
  function EffectiveDpr(reported: Option<real>): (dpr: real)
    ensures dpr >= 1.0
    ensures reported.Some? && reported.value > 1.0 ==> dpr == reported.value
    ensures !(reported.Some? && reported.value > 1.0) ==> dpr == 1.0
  {
    MaxReal(1.0, if reported.Some? && reported.value != 0.0 then reported.value else 1.0)
  }

  /** A backing dimension of the bitmap, the logical one times the ratio, rounded: never
      smaller than the logical dimension, and equal to it at ratio 1. */
  function BackingSize(logical: nat, dpr: real): (px: int)
    requires dpr >= 1.0
    ensures px >= logical
    ensures dpr == 1.0 ==> px == logical
  {
    assert logical as real * dpr - logical as real == logical as real * (dpr - 1.0);
    Round(logical as real * dpr)
  }

  /** How many times the draw loop, `y` from `-LINE_STEP` while `y <= TILE_H`, runs. */
  const LINE_COUNT: nat := (TILE_H / LINE_STEP + 2) as nat

  /** The `y` of the draw loop's `i`-th iteration. */
  function LineY(i: nat): int
  {
    -LINE_STEP + i * LINE_STEP
  }

  /** The rows `LineY(0)` to `LineY(LINE_COUNT - 1)` are exactly the ones for
      which the loop condition `y <= TILE_H` holds: seven of them, from one
      step above the tile to its bottom edge. */
  lemma RowsOfTheDrawLoop(i: nat)
    ensures LINE_COUNT == 7
    ensures LineY(0) == -LINE_STEP
    ensures LineY(i) <= TILE_H <==> i < LINE_COUNT
    ensures LineY(i + 1) == LineY(i) + LINE_STEP
  {
  }
}
