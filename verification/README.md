# Semantic view: hover, focus and label-sizing logic

A Dafny model of the sequential logic inside `semantic_view.js`, a three.js
viewer that draws one labelled sphere ("node") per collection in a 3D
scatter plot. The model covers four parts of that file:

- **Hover tracking and click selection.** This is module `Hover`.
  - Each animation frame the ray caster returns the objects under the
    pointer, nearest first.
  - It tests the spheres and, recursively, their children. So a hit is
    either a node's sphere or that node's label sprite: `Sphere(i)` or
    `Label(i)`.
  - The nearest hit becomes the hovered object. A hovered sphere is drawn
    at 1.4 times its size, and a previously hovered sphere goes back to
    size 1.
  - A hovered label gets the same scale writes, but they land on its
    sprite. The label scaler overwrites them in the same frame, so
    hovering a label emphasises nothing. The tooltip and the click alert
    name a sphere's collection; a label carries no name, so they show
    `undefined`.
  - A click reports the hovered object, if there is one.
- **Camera focus.** Choosing a node in the side list cuts the camera to the
  node's position plus `(0, 0, 30)` and makes the node the orbit pivot.
  This is module `Focus`.
- **Label sizing.** This is module `LabelScale`.
  - Every frame, each node label gets a world height of
    `desiredPixelHeight` (36) times the world units per pixel at the
    node's distance from the camera. Its width is that height times the
    label canvas's aspect ratio.
  - Width and height are each clamped to `[0.5, 20]` scene units.
- **Text sprite dimensions.** These are the canvas size, the outline width
  and the initial sprite scale of a text label. Parameters left out, or
  set to 0, fall back to their defaults: font size 48, border 4, scale
  factor 0.12. This is module `TextSprite`.

Module `Scene` puts hover and label sizing together into one frame of
`animate`. A label sprite is a child of its sphere, so the hovered sphere's
label is drawn 1.4 times its clamped size.

Inputs that the viewer gets from the browser or the graphics library are
parameters:

- the ray-cast hit list, ordered nearest first;
- `tan(vFOV/2)`, as a real;
- each node's distance from the camera. The square root is not modelled:
  the caller supplies `d` with `d >= 0` and `d*d` equal to the squared
  distance;
- the render surface's pixel height;
- the measured text width.

Coordinates and sizes are exact reals, not IEEE doubles.

Three behaviours of the code are worth stating plainly:

- **Zero render height.** The code divides by the render height with no
  guard (semantic_view.js:179). The model therefore requires a positive
  height.
- **Hovered label size.** The clamp applies to the sprite's own scale. The
  sprite is a child of the sphere (semantic_view.js:111). So the hovered
  sphere's label is drawn up to `1.4 * 20 = 28` units tall, above the
  clamp maximum. `Scene.HoveredLabelExceedsMax` shows this.
- **Focus direction.** The camera offset is always the fixed world offset
  `(0, 0, 30)` (semantic_view.js:163), whatever direction the camera was
  looking.

## Model

| member | source | states |
|---|---|---|
| `Hover.Initial` | semantic_view.js:145 | the session starts with nothing hovered and every sphere at scale 1, a consistent state |
| `Hover.Step` | semantic_view.js:195-210 | after a frame the hovered object is the first (nearest) hit, or none for an empty hit list; on a change a previously hovered sphere is reset to 1 and a newly hovered sphere set to 1.4; the same target again changes nothing; no other sphere's scale moves |
| `Hover.LabelWrites` | semantic_view.js:197-200 | the scale writes a frame makes to label sprites: none when the hovered object is unchanged; otherwise a label that stops being hovered is set to 1, and one that starts being hovered is set to 1.4 |
| `Hover.StepFromConsistent` | semantic_view.js:195-210 | from any consistent state one frame lands in the consistent state of the new nearest hit, whatever was hovered before |
| `Hover.StepIdempotent` | semantic_view.js:197 | repeating a frame with the same hit list changes nothing and writes to no label |
| `Hover.Run` | semantic_view.js:191-210 | a sequence of frames keeps the state well formed and ends hovering the last frame's nearest hit |
| `Hover.RunFromInitial` | semantic_view.js:191-210 | after any frames from the start, the scales are exactly 1.4 on the sphere of the last frame's nearest hit (if it is a sphere) and 1 everywhere else |
| `Hover.EmphasisedIsHovered` | semantic_view.js:198-200 | in a consistent state the set of spheres drawn at 1.4 is the hovered sphere alone, or empty when a label or nothing is hovered |
| `Hover.HoverExclusive` | semantic_view.js:195-210 | after any frames from the start at most one sphere has scale 1.4, and a sphere has it exactly when it is the hovered object |
| `Hover.Click` | semantic_view.js:155-159 | a click selects exactly when something is hovered, selects the hovered object (a sphere selected this way is the emphasised one), and leaves the state unchanged |
| `Hover.HitName` | semantic_view.js:157 | a hit on a sphere names its collection; a hit on a label names nothing, which JavaScript shows as `undefined` |
| `Hover.Simulate` | semantic_view.js:155-210 | a session of frames and clicks keeps the state well formed; which selections it records is stated by `Hover.ClickSelectsLastNearest` |
| `Hover.ClicksAreInert` | semantic_view.js:155-159 | a session with clicks ends in the same state as its frames alone |
| `Hover.ClickSelectsLastNearest` | semantic_view.js:155-159 | a click selects the nearest hit of the latest frame, and nothing if that frame hit nothing or no frame has run |
| `Focus.FocusOnNode` | semantic_view.js:161-167 | the orbit target becomes the node; the camera sits at offset (0, 0, 30) from it, at distance 30 |
| `Focus.FocusIgnoresPriorCamera` | semantic_view.js:161-167 | the focused camera does not depend on the prior camera position or target |
| `Focus.FocusLastRequestWins` | semantic_view.js:165-166 | focusing twice equals focusing on the second node only |
| `Focus.FocusCharacterised` | semantic_view.js:161-167 | a camera is the focused camera for a node exactly when its target is the node and its offset from the node is (0, 0, 30) |
| `LabelScale.Clamp` | semantic_view.js:183-186 | the result lies in [0.5, 20]; it equals the input inside that range, and the nearer bound outside it |
| `LabelScale.ClampIdempotent` | semantic_view.js:185-186 | clamping twice equals clamping once |
| `LabelScale.ClampMonotone` | semantic_view.js:185-186 | clamping preserves order |
| `LabelScale.LabelSize` | semantic_view.js:178-186 | width and height lie in [0.5, 20]; the height equals `desiredPx * 2 * tanHalf * distance / viewHeight` when that is in range, and the nearer bound otherwise; the width likewise for that height times the canvas aspect |
| `LabelScale.OnScreenHeight` | semantic_view.js:178-186 | an unclamped label's height divided by the world units per pixel at its distance is exactly `desiredPx`; a clamped one gives the bound's share, more than `desiredPx` when too near and less when too far |
| `LabelScale.AspectPreserved` | semantic_view.js:181-186 | when neither side is clamped, the label's width-to-height ratio is its canvas's |
| `LabelScale.HeightMonotoneInDistance` | semantic_view.js:177-186 | a farther label is never given a smaller world height |
| `LabelScale.Rescaled` | semantic_view.js:172-187 | a labelled node's label scale becomes the label size for that node's distance and canvas, in range; its canvas size and position are kept; a node without a label is left alone |
| `LabelScale.RescaleIdempotent` | semantic_view.js:185-187 | rescaling a node twice at the same distance equals rescaling it once: no state accumulates |
| `LabelScale.RescaleIgnoresPriorScale` | semantic_view.js:187 | whatever scale a label had before, rescaling gives the same result |
| `LabelScale.UpdateSpriteScales` | semantic_view.js:169-189 | every node is rescaled for its own distance from the camera, in order, and every label scale ends in range; the result is `LabelScale.RescaleAll`, the scaler result `Scene.Frame` uses |
| `TextSprite.Or` | semantic_view.js:36-38 | the JavaScript or-default of a value and a default: an absent or falsy value gives the default, any other value is kept |
| `TextSprite.Resolve` | semantic_view.js:36-65 | absent or falsy options become Arial, 48, 4 and 0.12; any other given option is kept; so every resolved option is non-falsy |
| `TextSprite.Ceil` | semantic_view.js:43 | `Math.ceil`: the least integer not below the input |
| `TextSprite.Floor` | semantic_view.js:51 | `Math.floor`: the greatest integer not above the input |
| `TextSprite.PaddedSide` | semantic_view.js:43-47 | a canvas side is the content size rounded up by less than a pixel plus four borders, and leaves exactly two borders on each side of the rounded content |
| `TextSprite.OutlineWidth` | semantic_view.js:51 | the outline is at least 2 pixels; above that it is the 0.08 share of the font size rounded down |
| `TextSprite.CreateTextSprite` | semantic_view.js:35-71 | the canvas is the text width rounded up plus 4 borders wide and 1.2 font sizes rounded up plus 4 borders tall, both positive; the text starts 2 borders in from each edge; the outline is at least 2 pixels; the initial scale is the canvas size times the scale factor |
| `TextSprite.SceneSprite` | semantic_view.js:66-69 | a created sprite, as the label scaler reads it, keeps the canvas size recorded in its `userData` and its initial scale, with a positive canvas height |
| `TextSprite.CreatedLabelsAreScalable` | semantic_view.js:101-112 | nodes given one created label each, as the loader builds them, satisfy every sprite requirement of the label scaler |
| `TextSprite.NodeLabel` | semantic_view.js:109 | a node label (font size 48) has a canvas 74 pixels tall, a 3-pixel outline and an initial height of 8.88 |
| `TextSprite.AxisLabel` | semantic_view.js:136 | an axis label (font size 36, factor 0.08) has a canvas 60 pixels tall, a 2-pixel outline and an initial height of 4.8 |
| `Scene.LabelWorldHeightBounds` | semantic_view.js:109-112 | after any frames, a label whose sphere is not hovered is drawn within [0.5, 20]; the hovered sphere's label is drawn at 1.4 times its scale, at most 28 |
| `Scene.HoveredLabelExceedsMax` | semantic_view.js:111 | a hovered sphere whose label is at the clamp maximum has that label drawn 28 units tall, above the maximum |
| `Scene.ApplyLabelWrites` | semantic_view.js:198-200 | scale writes to label sprites change only the sprites' scales: positions, label presence and canvas sizes are kept |
| `Scene.LabelWritesDoNotSurvive` | semantic_view.js:197-212 | after the label scaler runs, every label is sized exactly as if the hover writes to label sprites had not been made |
| `Scene.Frame` | semantic_view.js:193-212 | one frame moves the hover state by one step and leaves every label sized for its own distance at 36 pixels and in range, whatever hover wrote to it |

## Left out

- three.js scene, renderer, lights, `OrbitControls` (including damping after a focus cut) and the `CSS2DRenderer`: library behaviour, not part of this logic.
- Ray intersection geometry: `intersectObjects` is an oracle returning sphere and label hits, nearest first. Axis-label sprites are not children of the nodes and are never hit.
- `Math.tan`, `degToRad`, `Math.sqrt` inside `distanceTo`, and the mouse-to-device-coordinate conversion (semantic_view.js:149-150): floating-point maths, supplied as inputs.
- IEEE double rounding: all arithmetic is exact. At the font sizes the viewer uses (48 and 36), `Math.ceil(fontsize * 1.2)` and `Math.floor(fontsize * 0.08)` give the same integers either way.
- LabelScale.OnScreenHeight: measures the label against the world units per pixel at the Euclidean distance the code uses (semantic_view.js:177). The renderer sizes a sprite by its view-space depth, and the label sits 0.6 units in front of its node (semantic_view.js:110). So the pixel height actually drawn is about 36 / cos θ for a label θ off the view axis, not exactly 36. Perspective projection is not modelled.
- The data fetch, the fallback set of three collections (semantic_view.js:93), the warning notice, the sidebar and tooltip DOM, `alert`'s message text and the resize handler: I/O and UI. Only the name a hit shows is modelled.
- Axis-line geometry (semantic_view.js:124-140): constant geometry, no logic. Only the axis labels' sizes are modelled.
- Drawing on the canvas (`clearRect`, `strokeText`, `fillText`) and the font string `fontsize + 'px ' + fontface`: drawing calls, and number-to-text formatting.
- The `!sprite.userData` test in `updateSpriteScales`: three.js objects always carry `userData`, so only a missing sprite is modelled.
- Per-component scale vectors: a sphere's scale is one uniform factor, because the code always sets all three components alike. A hover write to a label sets its width and height, and the scaler overwrites both.
- CreateTextSprite: requires a non-negative font size and a non-negative measured width. Border thickness is a natural number. Negative sizes, and a fractional border that the canvas width setter would truncate, are not modelled.
- LabelScale.LabelSize: requires a positive render height and a positive label canvas height, because the code divides by both unguarded. A zero render height gives Infinity or NaN in the browser, and that is not modelled.
