/** How the hover emphasis and the label sizing combine in one animation
    frame. Each label sprite is a child of its node's sphere, so the size it
    is drawn at in the world is the sprite's own (clamped) scale times the
    sphere's scale. */
module Scene {

  import opened Options
  import opened Geometry
  import Hover
  import LabelScale

  /** The world height of node `i`'s label. */
  function LabelWorldHeight(s: Hover.State, i: nat, sprite: LabelScale.Sprite): real
    requires i < |s.scales|
  {
    s.scales[i] * sprite.scale.height
  }

  /** After any frames from the start, a label whose sphere is not hovered is
      drawn within the clamp range, and the hovered sphere's label is drawn
      1.4 times its clamped height, so up to 28 units tall. The label's own
      scale is taken as any in-range scale: that every label the scaler
      leaves is in range is what `Frame` (and `LabelScale.Rescaled`)
      promise. */
  lemma LabelWorldHeightBounds(n: nat, frames: seq<seq<Hover.Hit>>, i: nat, sprite: LabelScale.Sprite)
    requires Hover.ValidFrames(n, frames) && i < n
    requires LabelScale.InRange(sprite.scale)
    ensures var r := Hover.Run(Hover.Initial(n), frames);
      && (r.hovered != Some(Hover.Sphere(i)) ==>
            LabelWorldHeight(r, i, sprite) == sprite.scale.height
            && LabelScale.MinWorld <= LabelWorldHeight(r, i, sprite) <= LabelScale.MaxWorld)
      && (r.hovered == Some(Hover.Sphere(i)) ==>
            LabelWorldHeight(r, i, sprite) == Hover.HoverScale * sprite.scale.height
            && LabelWorldHeight(r, i, sprite) <= Hover.HoverScale * LabelScale.MaxWorld)
  {
  }

  /** A hovered sphere whose label is at the clamp maximum has that label
      drawn taller than the maximum. */
  lemma HoveredLabelExceedsMax(n: nat, hits: seq<Hover.Hit>, sprite: LabelScale.Sprite)
    requires |hits| > 0 && Hover.ValidHits(n, hits) && hits[0].Sphere?
    requires sprite.scale.height == LabelScale.MaxWorld
    ensures var r := Hover.Run(Hover.Initial(n), [hits]);
      hits[0].node < n && LabelWorldHeight(r, hits[0].node, sprite) == 28.0 > LabelScale.MaxWorld
  {
  }

  /** A hover scale write to node `node`'s label sprite (`scale.set(f, f, f)`). */
  function WriteLabelScale(node: LabelScale.Node, f: real): LabelScale.Node {
    if node.sprite.Some? then node.(sprite := Some(node.sprite.value.(scale := LabelScale.Size(f, f))))
    else node
  }

  /** Label-sprite scale writes applied in order. */
  function ApplyLabelWrites(nodes: seq<LabelScale.Node>, writes: seq<(nat, real)>): (r: seq<LabelScale.Node>)
    ensures |r| == |nodes|
    ensures forall k :: 0 <= k < |nodes| ==>
      && r[k].worldPos == nodes[k].worldPos
      && (r[k].sprite.Some? <==> nodes[k].sprite.Some?)
      && (r[k].sprite.Some? ==>
            r[k].sprite.value.canvasWidth == nodes[k].sprite.value.canvasWidth
            && r[k].sprite.value.canvasHeight == nodes[k].sprite.value.canvasHeight)
    decreases |writes|
  {
    if |writes| == 0 then nodes
    else
      var i := writes[0].0;
      var next := if i < |nodes| then nodes[i := WriteLabelScale(nodes[i], writes[0].1)] else nodes;
      ApplyLabelWrites(next, writes[1..])
  }

  /** The hover writes to label sprites never reach the screen: the scaler
      that runs later in the frame sizes every label exactly as if they had
      not been made. */
  lemma LabelWritesDoNotSurvive(desiredPixelHeight: real, tanHalf: real, viewHeight: int,
                                nodes: seq<LabelScale.Node>, distances: seq<real>, writes: seq<(nat, real)>)
    requires viewHeight > 0 && LabelScale.ValidSprites(nodes) && |distances| == |nodes|
    ensures LabelScale.ValidSprites(ApplyLabelWrites(nodes, writes))
    ensures LabelScale.RescaleAll(desiredPixelHeight, tanHalf, viewHeight, ApplyLabelWrites(nodes, writes), distances)
         == LabelScale.RescaleAll(desiredPixelHeight, tanHalf, viewHeight, nodes, distances)
  {
  }

  /** Everything one frame reads and writes: the hover state and the nodes
      with their labels. */
  datatype World = World(hover: Hover.State, nodes: seq<LabelScale.Node>)

  predicate WorldValid(w: World) {
    Hover.WellFormed(w.hover) && |w.nodes| == |w.hover.scales| && LabelScale.ValidSprites(w.nodes)
  }

  /** One animation frame: hover tracking (with its writes to a hovered
      label's sprite), then the label scaler at the fixed 36-pixel height.
      `LabelScale.RescaleAll` is the scaler's result, the same one
      `LabelScale.UpdateSpriteScales` computes with its loop.
      `distances[k]` is node `k`'s distance from the camera. */
  function Frame(w: World, hits: seq<Hover.Hit>, tanHalf: real, viewHeight: int,
                 cameraPos: Vec3, distances: seq<real>): (r: World)
    requires WorldValid(w) && Hover.ValidHits(|w.hover.scales|, hits)
    requires viewHeight > 0 && |distances| == |w.nodes|
    requires forall k :: 0 <= k < |w.nodes| ==> IsDistance(distances[k], cameraPos, w.nodes[k].worldPos)
    ensures WorldValid(r)
    ensures r.hover == Hover.Step(w.hover, hits)
    // each label is sized for its own distance at 36 pixels, whatever hover wrote to it
    ensures forall k :: 0 <= k < |w.nodes| ==>
      r.nodes[k] == LabelScale.Rescaled(LabelScale.DesiredPixelHeight, tanHalf, viewHeight, w.nodes[k], distances[k])
    ensures forall k :: 0 <= k < |r.nodes| && r.nodes[k].sprite.Some? ==>
      LabelScale.InRange(r.nodes[k].sprite.value.scale)
  {
    var written := ApplyLabelWrites(w.nodes, Hover.LabelWrites(w.hover, hits));
    LabelWritesDoNotSurvive(LabelScale.DesiredPixelHeight, tanHalf, viewHeight, w.nodes, distances,
                            Hover.LabelWrites(w.hover, hits));
    World(Hover.Step(w.hover, hits),
          LabelScale.RescaleAll(LabelScale.DesiredPixelHeight, tanHalf, viewHeight, written, distances))
  }

}
