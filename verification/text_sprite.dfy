/** The size arithmetic of a text label sprite: the canvas the text is drawn
    on, the outline width, and the sprite's initial world scale.

    Options are JavaScript properties combined with `||`, so an absent value
    and the type's falsy value (0, the empty string) both fall back to the
    default. The text's measured width comes from the canvas's text metrics
    and is taken as an input. */
module TextSprite {

  import opened Options
  import opened Geometry
  import LabelScale

  const DefaultFontFace: string := "Arial"
  const DefaultFontSize: real := 48.0
  const DefaultBorderThickness: nat := 4
  const DefaultScaleFactor: real := 0.12

  /** Line height as a multiple of the font size. */
  const LineHeightFactor: real := 1.2
  /** Outline width as a multiple of the font size, and its floor. */
  const StrokeFactor: real := 0.08
  const MinLineWidth: int := 2

  datatype Parameters = Parameters(fontface: Option<string>, fontsize: Option<real>,
                                   borderThickness: Option<nat>, scaleFactor: Option<real>)

  /** `v || fallback`, where `falsy` is the one falsy value of the type. */
  function Or<T(==)>(v: Option<T>, falsy: T, fallback: T): (r: T)
    ensures v == None || v == Some(falsy) ==> r == fallback
    ensures v.Some? && v.value != falsy ==> r == v.value
  {
    if v.Some? && v.value != falsy then v.value else fallback
  }

  datatype Resolved = Resolved(fontface: string, fontsize: real, borderThickness: nat, scaleFactor: real)

  function Resolve(p: Parameters): (r: Resolved)
    ensures r.fontface != [] && r.fontsize != 0.0 && r.borderThickness > 0 && r.scaleFactor != 0.0
    // absent or falsy options take their defaults
    ensures p.fontface == None || p.fontface == Some("") ==> r.fontface == DefaultFontFace
    ensures p.fontsize == None || p.fontsize == Some(0.0) ==> r.fontsize == DefaultFontSize
    ensures p.borderThickness == None || p.borderThickness == Some(0) ==> r.borderThickness == DefaultBorderThickness
    ensures p.scaleFactor == None || p.scaleFactor == Some(0.0) ==> r.scaleFactor == DefaultScaleFactor
    // any other given option is kept
    ensures p.fontface.Some? && p.fontface.value != "" ==> r.fontface == p.fontface.value
    ensures p.fontsize.Some? && p.fontsize.value != 0.0 ==> r.fontsize == p.fontsize.value
    ensures p.borderThickness.Some? && p.borderThickness.value != 0 ==> r.borderThickness == p.borderThickness.value
    ensures p.scaleFactor.Some? && p.scaleFactor.value != 0.0 ==> r.scaleFactor == p.scaleFactor.value
  {
    Resolved(Or(p.fontface, "", DefaultFontFace),
             Or(p.fontsize, 0.0, DefaultFontSize),
             Or(p.borderThickness, 0, DefaultBorderThickness),
             Or(p.scaleFactor, 0.0, DefaultScaleFactor))
  }

  /** `Math.ceil`: the least integer not below `x`. */
  function Ceil(x: real): (r: int)
    ensures x <= r as real < x + 1.0
  {
    -((-x).Floor)
  }

  /** `Math.floor`: the greatest integer not above `x`. */
  function Floor(x: real): (r: int)
    ensures x - 1.0 < r as real <= x
  {
    x.Floor
  }

  function MaxInt(a: int, b: int): int { if a >= b then a else b }

  /** A canvas side: `content` pixels rounded up, with a padding of twice
      the border on both ends. */
  function PaddedSide(content: real, border: nat): (side: int)
    ensures content + (4 * border) as real <= side as real < content + (4 * border) as real + 1.0
    ensures side - 2 * border - Ceil(content) == 2 * border
  {
    Ceil(content) + border * 2 * 2
  }

  /** The outline width for a font size: an 0.08 share of it rounded down,
      but at least two pixels. */
  function OutlineWidth(fontsize: real): (w: int)
    ensures w >= MinLineWidth
    ensures w as real <= StrokeFactor * fontsize || w == MinLineWidth
    ensures StrokeFactor * fontsize < w as real + 1.0
  {
    MaxInt(MinLineWidth, Floor(fontsize * StrokeFactor))
  }

  /** A sprite side in world units: `pixels` canvas pixels times the scale
      factor. */
  function Scaled(pixels: int, factor: real): real {
    pixels as real * factor
  }

  /** The label as created: canvas size in pixels, outline width, where the
      text's top-left corner is drawn, and the sprite's initial scale. */
  datatype CreatedSprite = CreatedSprite(canvasWidth: int, canvasHeight: int, lineWidth: int, textX: int, textY: int,
                                         scaleX: real, scaleY: real)

  function CreateTextSprite(measuredWidth: real, p: Parameters): (s: CreatedSprite)
    requires measuredWidth >= 0.0
    requires p.fontsize.Some? ==> p.fontsize.value >= 0.0
    ensures var r := Resolve(p);
      var border := 4 * r.borderThickness;
      // the text fits with a padding of twice the border on each side, rounded up by less than a pixel
      && measuredWidth + border as real <= s.canvasWidth as real < measuredWidth + border as real + 1.0
      && LineHeightFactor * r.fontsize + border as real <= s.canvasHeight as real
      && s.canvasHeight as real < LineHeightFactor * r.fontsize + border as real + 1.0
      && s.textX == s.textY == 2 * r.borderThickness
      && s.canvasWidth - s.textX - Ceil(measuredWidth) == s.textX
      && s.canvasHeight - s.textY - Ceil(LineHeightFactor * r.fontsize) == s.textY
    ensures s.canvasWidth > 0 && s.canvasHeight > 0
    // the outline is at least two pixels, else the font-size share rounded down
    ensures s.lineWidth >= MinLineWidth
    ensures s.lineWidth as real <= StrokeFactor * Resolve(p).fontsize || s.lineWidth == MinLineWidth
    ensures StrokeFactor * Resolve(p).fontsize < s.lineWidth as real + 1.0
    ensures s.scaleX == Scaled(s.canvasWidth, Resolve(p).scaleFactor)
    ensures s.scaleY == Scaled(s.canvasHeight, Resolve(p).scaleFactor)
  {
    var r := Resolve(p);
    var padding := r.borderThickness * 2;
    var width := PaddedSide(measuredWidth, r.borderThickness);
    var height := PaddedSide(LineHeightFactor * r.fontsize, r.borderThickness);
    CreatedSprite(width, height, OutlineWidth(r.fontsize), padding, padding,
          Scaled(width, r.scaleFactor), Scaled(height, r.scaleFactor))
  }

  /** The created sprite as the label scaler sees it: its canvas size and
      its current scale. */
  function SceneSprite(c: CreatedSprite): (s: LabelScale.Sprite)
    requires c.canvasHeight > 0
    ensures s.canvasWidth == c.canvasWidth && s.canvasHeight == c.canvasHeight
    ensures s.scale == LabelScale.Size(c.scaleX, c.scaleY)
    ensures s.canvasHeight > 0
  {
    LabelScale.Sprite(c.canvasWidth, c.canvasHeight, LabelScale.Size(c.scaleX, c.scaleY))
  }

  /** Nodes built as the viewer builds them, one created label each, meet
      everything the label scaler asks of its sprites. */
  lemma CreatedLabelsAreScalable(positions: seq<Vec3>, widths: seq<real>, p: Parameters)
    requires |widths| == |positions|
    requires forall k :: 0 <= k < |widths| ==> widths[k] >= 0.0
    requires p.fontsize.Some? ==> p.fontsize.value >= 0.0
    ensures LabelScale.ValidSprites(
      seq(|positions|, k requires 0 <= k < |positions| =>
        LabelScale.Node(positions[k], Some(SceneSprite(CreateTextSprite(widths[k], p))))))
  {
  }

  /** The label of a collection node, created with font size 48 and the
      other options at their defaults. */
  lemma NodeLabel(measuredWidth: real)
    requires measuredWidth >= 0.0
    ensures var s := CreateTextSprite(measuredWidth, Parameters(None, Some(48.0), None, None));
      && s.canvasWidth == Ceil(measuredWidth) + 16
      && s.canvasHeight == 74
      && s.lineWidth == 3
      && s.scaleY == 8.88
  {
  }

  /** An axis label, created with font size 36 and scale factor 0.08. */
  lemma AxisLabel(measuredWidth: real)
    requires measuredWidth >= 0.0
    ensures var s := CreateTextSprite(measuredWidth, Parameters(None, Some(36.0), None, Some(0.08)));
      && s.canvasWidth == Ceil(measuredWidth) + 16
      && s.canvasHeight == 60
      && s.lineWidth == 2
      && s.scaleY == 4.8
  {
  }

}
