/** Per-frame sizing of the node labels: each label (a camera-facing sprite)
    is given the world size that makes it about `desiredPixelHeight` pixels
    tall on screen at its distance from the camera, clamped to
    [MinWorld, MaxWorld] scene units.

    `tanHalf` is tan(vFOV/2) of the perspective camera, taken as a given
    real; `viewHeight` is the render surface's height in CSS pixels. */
module LabelScale {

  import opened Options
  import opened Geometry

  const MinWorld: real := 0.5
  const MaxWorld: real := 20.0
  const DesiredPixelHeight: real := 36.0

  function Min(a: real, b: real): real { if a <= b then a else b }
  function Max(a: real, b: real): real { if a >= b then a else b }

  /** `Math.min(maxWorld, Math.max(minWorld, v))`. */
  function Clamp(v: real): (r: real)
    ensures MinWorld <= r <= MaxWorld
    ensures MinWorld <= v <= MaxWorld ==> r == v
    ensures v < MinWorld ==> r == MinWorld
    ensures v > MaxWorld ==> r == MaxWorld
  {
    Min(MaxWorld, Max(MinWorld, v))
  }

  lemma ClampIdempotent(v: real)
    ensures Clamp(Clamp(v)) == Clamp(v)
  {
  }

  lemma ClampMonotone(a: real, b: real)
    requires a <= b
    ensures Clamp(a) <= Clamp(b)
  {
  }

  /** World units covered by one screen pixel at `distance`. */
  function WorldUnitsPerPixel(tanHalf: real, distance: real, viewHeight: int): real
    requires viewHeight > 0
  {
    (2.0 * tanHalf * distance) / (viewHeight as real)
  }

  /** The unclamped world height of a label. */
  function DesiredWorldHeight(desiredPixelHeight: real, tanHalf: real, distance: real, viewHeight: int): real
    requires viewHeight > 0
  {
    desiredPixelHeight * WorldUnitsPerPixel(tanHalf, distance, viewHeight)
  }

  /** Width over height of a label's canvas. */
  function Aspect(canvasWidth: int, canvasHeight: int): real
    requires canvasHeight > 0
  {
    (canvasWidth as real) / (canvasHeight as real)
  }

  datatype Size = Size(width: real, height: real)

  predicate InRange(s: Size) {
    MinWorld <= s.width <= MaxWorld && MinWorld <= s.height <= MaxWorld
  }

  /** The world size of one label, from its canvas size and its distance. */
  function LabelSize(desiredPixelHeight: real, tanHalf: real, distance: real, viewHeight: int,
                     canvasWidth: int, canvasHeight: int): (r: Size)
    requires viewHeight > 0 && canvasHeight > 0
    ensures InRange(r)
    ensures var h := desiredPixelHeight * (2.0 * tanHalf * distance) / (viewHeight as real);
      && (MinWorld <= h <= MaxWorld ==> r.height == h)
      && (h < MinWorld ==> r.height == MinWorld)
      && (h > MaxWorld ==> r.height == MaxWorld)
    ensures var w := desiredPixelHeight * (2.0 * tanHalf * distance) / (viewHeight as real)
                     * ((canvasWidth as real) / (canvasHeight as real));
      && (MinWorld <= w <= MaxWorld ==> r.width == w)
      && (w < MinWorld ==> r.width == MinWorld)
      && (w > MaxWorld ==> r.width == MaxWorld)
  {
    var height := DesiredWorldHeight(desiredPixelHeight, tanHalf, distance, viewHeight);
    var width := height * Aspect(canvasWidth, canvasHeight);
    Size(Clamp(width), Clamp(height))
  }

  /** A world height expressed in the pixels the scaler reckons with: `h`
      divided by the world units per pixel at the node's distance. (The
      renderer itself sizes a sprite by its view-space depth, not by this
      distance; see README.) */
  function ScreenPixelHeight(h: real, tanHalf: real, distance: real, viewHeight: int): real
    requires viewHeight > 0 && tanHalf > 0.0 && distance > 0.0
  {
    h / WorldUnitsPerPixel(tanHalf, distance, viewHeight)
  }

  /** The point of the scaler: the height of an unclamped label, divided by
      the world units per pixel at the node's distance, is exactly
      `desiredPixelHeight`; a clamped label measures what the clamp bound it
      hit measures, more than desired when too near and less when too far. */
  lemma OnScreenHeight(desiredPixelHeight: real, tanHalf: real, distance: real, viewHeight: int,
                       canvasWidth: int, canvasHeight: int)
    requires viewHeight > 0 && canvasHeight > 0 && tanHalf > 0.0 && distance > 0.0
    ensures var h := DesiredWorldHeight(desiredPixelHeight, tanHalf, distance, viewHeight);
      var r := LabelSize(desiredPixelHeight, tanHalf, distance, viewHeight, canvasWidth, canvasHeight);
      var px := ScreenPixelHeight(r.height, tanHalf, distance, viewHeight);
      && (MinWorld <= h <= MaxWorld ==> px == desiredPixelHeight)
      && (h < MinWorld ==> px == ScreenPixelHeight(MinWorld, tanHalf, distance, viewHeight) && px > desiredPixelHeight)
      && (h > MaxWorld ==> px == ScreenPixelHeight(MaxWorld, tanHalf, distance, viewHeight) && px < desiredPixelHeight)
  {
  }

  /** When neither dimension is clamped, the label keeps its canvas's
      aspect ratio. */
  lemma AspectPreserved(desiredPixelHeight: real, tanHalf: real, distance: real, viewHeight: int,
                        canvasWidth: int, canvasHeight: int)
    requires viewHeight > 0 && canvasHeight > 0
    requires var h := DesiredWorldHeight(desiredPixelHeight, tanHalf, distance, viewHeight);
      MinWorld <= h <= MaxWorld && MinWorld <= h * Aspect(canvasWidth, canvasHeight) <= MaxWorld
    ensures var r := LabelSize(desiredPixelHeight, tanHalf, distance, viewHeight, canvasWidth, canvasHeight);
      r.width * (canvasHeight as real) == r.height * (canvasWidth as real)
  {
  }

  /** Labels never shrink as they move away from the camera. */
  lemma HeightMonotoneInDistance(desiredPixelHeight: real, tanHalf: real, d1: real, d2: real,
                                 viewHeight: int, canvasWidth: int, canvasHeight: int)
    requires viewHeight > 0 && canvasHeight > 0
    requires desiredPixelHeight >= 0.0 && tanHalf >= 0.0 && d1 <= d2
    ensures LabelSize(desiredPixelHeight, tanHalf, d1, viewHeight, canvasWidth, canvasHeight).height
         <= LabelSize(desiredPixelHeight, tanHalf, d2, viewHeight, canvasWidth, canvasHeight).height
  {
    var k := desiredPixelHeight * 2.0 * tanHalf / (viewHeight as real);
    assert k >= 0.0;
    assert DesiredWorldHeight(desiredPixelHeight, tanHalf, d1, viewHeight) == k * d1;
    assert DesiredWorldHeight(desiredPixelHeight, tanHalf, d2, viewHeight) == k * d2;
    assert k * d1 <= k * d2;
    ClampMonotone(k * d1, k * d2);
  }

  /** A label sprite: its canvas size (fixed at creation) and current scale. */
  datatype Sprite = Sprite(canvasWidth: int, canvasHeight: int, scale: Size)

  /** A node of the scene: its world position and its label, if it has one. */
  datatype Node = Node(worldPos: Vec3, sprite: Option<Sprite>)

  predicate ValidSprites(nodes: seq<Node>) {
    forall k :: 0 <= k < |nodes| && nodes[k].sprite.Some? ==> nodes[k].sprite.value.canvasHeight > 0
  }

  /** One node after the scaler has run: a node with a label gets the label
      size for its distance; a node without one is skipped. */
  function Rescaled(desiredPixelHeight: real, tanHalf: real, viewHeight: int, node: Node, distance: real): (r: Node)
    requires viewHeight > 0
    requires node.sprite.Some? ==> node.sprite.value.canvasHeight > 0
    ensures r.worldPos == node.worldPos
    ensures r.sprite.Some? <==> node.sprite.Some?
    ensures r.sprite.Some? ==>
      && r.sprite.value.canvasWidth == node.sprite.value.canvasWidth
      && r.sprite.value.canvasHeight == node.sprite.value.canvasHeight
      && r.sprite.value.scale == LabelSize(desiredPixelHeight, tanHalf, distance, viewHeight,
                                           node.sprite.value.canvasWidth, node.sprite.value.canvasHeight)
      && InRange(r.sprite.value.scale)
  {
    match node.sprite
    case None => node
    case Some(sp) =>
      var size := LabelSize(desiredPixelHeight, tanHalf, distance, viewHeight, sp.canvasWidth, sp.canvasHeight);
      node.(sprite := Some(sp.(scale := size)))
  }

  /** The scaler remembers nothing: running it twice is running it once. */
  lemma RescaleIdempotent(desiredPixelHeight: real, tanHalf: real, viewHeight: int, node: Node, distance: real)
    requires viewHeight > 0
    requires node.sprite.Some? ==> node.sprite.value.canvasHeight > 0
    ensures var once := Rescaled(desiredPixelHeight, tanHalf, viewHeight, node, distance);
      Rescaled(desiredPixelHeight, tanHalf, viewHeight, once, distance) == once
  {
  }

  /** A node's previous label scale has no influence on its rescaled label. */
  lemma RescaleIgnoresPriorScale(desiredPixelHeight: real, tanHalf: real, viewHeight: int, node: Node,
                                 distance: real, prior: Size)
    requires viewHeight > 0
    requires node.sprite.Some? ==> node.sprite.value.canvasHeight > 0
    ensures var other := if node.sprite.Some? then node.(sprite := Some(node.sprite.value.(scale := prior))) else node;
      Rescaled(desiredPixelHeight, tanHalf, viewHeight, other, distance)
        == Rescaled(desiredPixelHeight, tanHalf, viewHeight, node, distance)
  {
  }

  /** Every node rescaled for its own distance. */
  function RescaleAll(desiredPixelHeight: real, tanHalf: real, viewHeight: int,
                      nodes: seq<Node>, distances: seq<real>): (out: seq<Node>)
    requires viewHeight > 0 && ValidSprites(nodes) && |distances| == |nodes|
    ensures |out| == |nodes|
    ensures forall k :: 0 <= k < |nodes| ==>
      out[k] == Rescaled(desiredPixelHeight, tanHalf, viewHeight, nodes[k], distances[k])
  {
    seq(|nodes|, k requires 0 <= k < |nodes| =>
      Rescaled(desiredPixelHeight, tanHalf, viewHeight, nodes[k], distances[k]))
  }

  /** `updateSpriteScales`: every labelled node's label is resized for the
      node's current distance from the camera. `distances[k]` is that
      distance (the square root of the squared distance). */
  method UpdateSpriteScales(desiredPixelHeight: real, tanHalf: real, viewHeight: int, cameraPos: Vec3,
                            nodes: seq<Node>, distances: seq<real>) returns (out: seq<Node>)
    requires viewHeight > 0
    requires ValidSprites(nodes)
    requires |distances| == |nodes|
    requires forall k :: 0 <= k < |nodes| ==> IsDistance(distances[k], cameraPos, nodes[k].worldPos)
    ensures |out| == |nodes|
    ensures forall k :: 0 <= k < |nodes| ==>
      out[k] == Rescaled(desiredPixelHeight, tanHalf, viewHeight, nodes[k], distances[k])
    ensures out == RescaleAll(desiredPixelHeight, tanHalf, viewHeight, nodes, distances)
    ensures forall k :: 0 <= k < |out| && out[k].sprite.Some? ==> InRange(out[k].sprite.value.scale)
    ensures ValidSprites(out)
  {
    out := [];
    var i := 0;
    while i < |nodes|
      invariant 0 <= i <= |nodes|
      invariant |out| == i
      invariant forall k :: 0 <= k < i ==>
        out[k] == Rescaled(desiredPixelHeight, tanHalf, viewHeight, nodes[k], distances[k])
    {
      out := out + [Rescaled(desiredPixelHeight, tanHalf, viewHeight, nodes[i], distances[i])];
      i := i + 1;
    }
  }

}
