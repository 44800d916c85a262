/**
 * The framing geometry of `performImageProcessing` (script.js): from the image
 * size and the border percentage, the border, the square canvas side and the
 * position at which the unscaled image is drawn.
 *
 * JavaScript numbers are modelled as mathematical reals; the canvas side and
 * the border are integers because `Math.round` and `Math.max` of integers
 * produce integers.
 */
module Geometry {

  /** The value `parseFloat` returns for the border input: NaN or a number. */
  datatype BorderInput = NaN | Num(value: real)

  /** The default percentage the source falls back to. */
  const DefaultBorderPercentage: real := 2.5

  /**
   * `parseFloat(input) || 2.5`: NaN (empty or unparsable input) and zero are
   * falsy, so both fall back to the default.
   */
  function EffectiveBorderPercentage(input: BorderInput): (pct: real)
    ensures pct != 0.0
    ensures input.Num? && input.value != 0.0 ==> pct == input.value
    ensures input.NaN? || input.value == 0.0 ==> pct == DefaultBorderPercentage
  {
    match input
    case NaN => DefaultBorderPercentage
    case Num(v) => if v == 0.0 then DefaultBorderPercentage else v
  }

  /** `Math.round`: the nearest integer, halves rounded towards +infinity. */
  function Round(x: real): (n: int)
    ensures n as real - 0.5 <= x < n as real + 0.5
  {
    (x + 0.5).Floor
  }

  function Max(a: int, b: int): int
  {
    if a >= b then a else b
  }

  /** The values `performImageProcessing` computes, named as in the source. */
  datatype Layout = Layout(
    borderSize: int,
    widthWithBorder: int,
    heightWithBorder: int,
    squareDimension: int,
    xOffset: real,
    yOffset: real,
    imageX: real,
    imageY: real)

  /**
   * The layout for a `width` x `height` image and border percentage `pct`. The
   * canvas is a `squareDimension` square and the image is drawn unscaled with
   * its top-left corner at (`imageX`, `imageY`).
   */
  function Frame(width: nat, height: nat, pct: real): (l: Layout)
    // the border is the percentage of the longer side, to the nearest pixel
    ensures l.borderSize as real - 0.5 <= Max(width, height) as real * (pct / 100.0) < l.borderSize as real + 0.5
    // the bordered box is the image grown by the border on every side
    ensures l.widthWithBorder == width + 2 * l.borderSize && l.heightWithBorder == height + 2 * l.borderSize
    // the canvas side is the longer side plus a border on each end
    ensures l.squareDimension == Max(width, height) + 2 * l.borderSize
    // the bordered box is centred: no offset is negative and one of them is zero
    ensures l.xOffset >= 0.0 && l.yOffset >= 0.0 && (l.xOffset == 0.0 || l.yOffset == 0.0)
    ensures 2.0 * l.xOffset + l.widthWithBorder as real == l.squareDimension as real
    ensures 2.0 * l.yOffset + l.heightWithBorder as real == l.squareDimension as real
    // the margins left and right of the image are equal, and so are those above and below
    ensures l.imageX == l.squareDimension as real - (l.imageX + width as real)
    ensures l.imageY == l.squareDimension as real - (l.imageY + height as real)
    // along the longer side the image sits exactly one border from each edge
    ensures width >= height ==> l.imageX == l.borderSize as real
    ensures height >= width ==> l.imageY == l.borderSize as real
    // with a non-negative border the whole image lies on the canvas
    ensures l.borderSize >= 0 ==>
      && 0.0 <= l.imageX && l.imageX + width as real <= l.squareDimension as real
      && 0.0 <= l.imageY && l.imageY + height as real <= l.squareDimension as real
  {
    var maxDimension := Max(width, height);
    var borderSize := Round(maxDimension as real * (pct / 100.0));
    var widthWithBorder := width + 2 * borderSize;
    var heightWithBorder := height + 2 * borderSize;
    var squareDimension := Max(widthWithBorder, heightWithBorder);
    var xOffset := (squareDimension - widthWithBorder) as real / 2.0;
    var yOffset := (squareDimension - heightWithBorder) as real / 2.0;
    Layout(borderSize, widthWithBorder, heightWithBorder, squareDimension,
           xOffset, yOffset, xOffset + borderSize as real, yOffset + borderSize as real)
  }

  /** The layout `performImageProcessing` produces for what the user typed. */
  function FrameForInput(width: nat, height: nat, input: BorderInput): (l: Layout)
    ensures input.Num? && input.value != 0.0 ==> l == Frame(width, height, input.value)
    ensures input.NaN? || input == Num(0.0) ==> l == Frame(width, height, DefaultBorderPercentage)
  {
    Frame(width, height, EffectiveBorderPercentage(input))
  }

  /** A non-negative entry (or none) gives a non-negative border and a canvas at least as large as the image. */
  lemma NonNegativeEntryGivesNonNegativeBorder(width: nat, height: nat, input: BorderInput)
    requires input.Num? ==> input.value >= 0.0
    ensures FrameForInput(width, height, input).borderSize >= 0
    ensures FrameForInput(width, height, input).squareDimension >= Max(width, height)
  {
    var pct := EffectiveBorderPercentage(input);
    assert pct > 0.0;
    var x := Max(width, height) as real * (pct / 100.0);
    assert x >= 0.0;
  }

  /** Entering 0 is the same as entering nothing: both use the 2.5% default. */
  lemma ZeroEntryUsesDefault(width: nat, height: nat)
    ensures FrameForInput(width, height, Num(0.0)) == FrameForInput(width, height, NaN)
    ensures FrameForInput(width, height, NaN) == Frame(width, height, DefaultBorderPercentage)
  {
  }

  /** A border that rounds to zero gives a canvas exactly the longer side, with the image touching both of its ends. */
  lemma ZeroBorderFillsLongerSide(width: nat, height: nat, pct: real)
    requires Frame(width, height, pct).borderSize == 0
    ensures Frame(width, height, pct).squareDimension == Max(width, height)
    ensures width >= height ==> Frame(width, height, pct).imageX == 0.0
    ensures height >= width ==> Frame(width, height, pct).imageY == 0.0
  {
  }

  /** The worked case: 800 x 600 at 2.5% gives a 20 pixel border on an 840 square, the image at (20, 120). */
  lemma FrameExample()
    ensures FrameForInput(800, 600, Num(2.5)) == Layout(20, 840, 640, 840, 0.0, 100.0, 20.0, 120.0)
  {
    assert Round(800.0 * (2.5 / 100.0)) == 20;
  }
}
