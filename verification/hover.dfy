/** The pointer-interaction state machine of the viewer: once per animation
    frame the ray-cast hits (nearest first) move the hovered object and the
    per-node emphasis scale; a click reports the hovered object.

    Nodes are the indices 0 .. |scales|-1 of the node list. A node's scale is
    the uniform factor its sphere is drawn with: BaseScale, or HoverScale
    while it is emphasised.

    The ray caster tests the spheres and, recursively, their children, so a
    hit is either a node's sphere or the label sprite attached to that
    sphere. A hovered label is scaled like a sphere would be, but that write
    lands on the sprite, whose scale the label scaler overwrites later in the
    same frame (see `LabelWrites` and `Scene.Frame`); it never touches a
    sphere's scale. */
module Hover {

  import opened Options

  const BaseScale: real := 1.0
  const HoverScale: real := 1.4

  /** An object the pointer ray hits: node `node`'s sphere or its label. */
  datatype Hit = Sphere(node: nat) | Label(node: nat)

  datatype State = State(hovered: Option<Hit>, scales: seq<real>)

  /** The hovered object, if any, belongs to one of the nodes. */
  predicate WellFormed(s: State) {
    s.hovered.Some? ==> s.hovered.value.node < |s.scales|
  }

  /** Every hit belongs to one of the `n` nodes (the ray caster tests only the
      nodes and their children). */
  predicate ValidHits(n: nat, hits: seq<Hit>) {
    forall k :: 0 <= k < |hits| ==> hits[k].node < n
  }

  predicate ValidFrames(n: nat, frames: seq<seq<Hit>>) {
    forall k :: 0 <= k < |frames| ==> ValidHits(n, frames[k])
  }

  /** The object a hit list selects: its first (nearest) entry, if any. */
  function Nearest(hits: seq<Hit>): Option<Hit> {
    if |hits| > 0 then Some(hits[0]) else None
  }

  /** The hover target after a sequence of frames: the nearest hit of the
      last frame, or none before any frame has run. */
  function LastNearest(frames: seq<seq<Hit>>): Option<Hit> {
    if |frames| == 0 then None else Nearest(frames[|frames| - 1])
  }

  /** The node whose sphere is hovered, if a sphere is hovered. */
  function SphereOf(h: Option<Hit>): Option<nat> {
    if h.Some? && h.value.Sphere? then Some(h.value.node) else None
  }

  /** Reference definition: the scales of `n` nodes of which exactly the
      node `h` (if any) is emphasised. */
  function EmphasisScales(n: nat, h: Option<nat>): (r: seq<real>)
    ensures |r| == n
  {
    seq(n, i => if h == Some(i) then HoverScale else BaseScale)
  }

  /** The scales are exactly those the hovered sphere determines. */
  predicate Consistent(s: State) {
    WellFormed(s) && s.scales == EmphasisScales(|s.scales|, SphereOf(s.hovered))
  }

  /** The nodes currently drawn at the emphasis scale. */
  function Emphasised(s: State): set<nat> {
    set i: nat | i < |s.scales| && s.scales[i] == HoverScale
  }

  function AsSet(h: Option<nat>): set<nat> {
    if h.Some? then {h.value} else {}
  }

  /** The state when the scene starts: nothing hovered, every sphere at its
      natural size. */
  function Initial(n: nat): (s: State)
    ensures |s.scales| == n && s.hovered == None
    ensures forall i :: 0 <= i < n ==> s.scales[i] == BaseScale
    ensures Consistent(s)
  {
    State(None, seq(n, i => BaseScale))
  }

  /** The sphere scales with the hovered sphere, if any, put back to its
      natural size (resetting a hovered label writes to its sprite instead). */
  function Unhover(s: State): (scales: seq<real>)
    requires WellFormed(s)
  {
    if s.hovered.Some? && s.hovered.value.Sphere? then s.scales[s.hovered.value.node := BaseScale]
    else s.scales
  }

  /** The sphere scales with `h` emphasised, if it is a sphere. */
  function Emphasise(scales: seq<real>, h: Hit): seq<real>
    requires h.node < |scales|
  {
    if h.Sphere? then scales[h.node := HoverScale] else scales
  }

  /** One frame of hover tracking, as it affects the spheres. */
  function Step(s: State, hits: seq<Hit>): (r: State)
    requires WellFormed(s) && ValidHits(|s.scales|, hits)
    ensures WellFormed(r) && |r.scales| == |s.scales|
    ensures r.hovered == Nearest(hits)
    // hovering the same object again (or still nothing) changes nothing
    ensures s.hovered == r.hovered ==> r == s
    // on a change, a previously hovered sphere is reset and a newly hovered one emphasised
    ensures s.hovered != r.hovered && SphereOf(s.hovered).Some? ==>
              r.scales[SphereOf(s.hovered).value] == BaseScale
    ensures s.hovered != r.hovered && SphereOf(r.hovered).Some? ==>
              r.scales[SphereOf(r.hovered).value] == HoverScale
    // no other sphere's scale moves
    ensures forall i :: 0 <= i < |s.scales| && Some(i) != SphereOf(s.hovered) && Some(i) != SphereOf(r.hovered) ==>
              r.scales[i] == s.scales[i]
  {
    if |hits| > 0 then
      var obj := hits[0];
      if s.hovered != Some(obj) then
        State(Some(obj), Emphasise(Unhover(s), obj))
      else
        s
    else
      State(None, Unhover(s))
  }

  /** The scale writes one frame makes to label sprites, in order: a label
      that stops being hovered is set to BaseScale, then a label that starts
      being hovered is set to HoverScale. */
  function LabelWrites(s: State, hits: seq<Hit>): (w: seq<(nat, real)>)
    requires WellFormed(s) && ValidHits(|s.scales|, hits)
    ensures Step(s, hits).hovered == s.hovered ==> w == []
    ensures |w| <= 2
    ensures |w| == 2 ==> w[0].1 == BaseScale && w[1].1 == HoverScale
    ensures forall k :: 0 <= k < |w| ==>
      || (w[k].1 == BaseScale && s.hovered == Some(Label(w[k].0)) && Nearest(hits) != s.hovered)
      || (w[k].1 == HoverScale && Nearest(hits) == Some(Label(w[k].0)) && Nearest(hits) != s.hovered)
    ensures s.hovered.Some? && s.hovered.value.Label? && Nearest(hits) != s.hovered ==>
      (s.hovered.value.node, BaseScale) in w
    ensures Nearest(hits).Some? && Nearest(hits).value.Label? && Nearest(hits) != s.hovered ==>
      (Nearest(hits).value.node, HoverScale) in w
  {
    var next := Nearest(hits);
    if next == s.hovered then []
    else
      (if s.hovered.Some? && s.hovered.value.Label? then [(s.hovered.value.node, BaseScale)] else [])
      + (if next.Some? && next.value.Label? then [(next.value.node, HoverScale)] else [])
  }

  /** Frames applied in order, the last frame last. */
  function Run(s: State, frames: seq<seq<Hit>>): (r: State)
    requires WellFormed(s) && ValidFrames(|s.scales|, frames)
    ensures WellFormed(r) && |r.scales| == |s.scales|
    ensures |frames| > 0 ==> r.hovered == LastNearest(frames)
    decreases |frames|
  {
    if |frames| == 0 then s
    else Step(Run(s, frames[..|frames| - 1]), frames[|frames| - 1])
  }

  /** From a consistent state, one frame lands in the consistent state of
      the new nearest hit, whatever was hovered before. */
  lemma StepFromConsistent(s: State, hits: seq<Hit>)
    requires Consistent(s) && ValidHits(|s.scales|, hits)
    ensures Step(s, hits) == State(Nearest(hits), EmphasisScales(|s.scales|, SphereOf(Nearest(hits))))
  {
  }

  /** Two frames with the same hit list act as one. */
  lemma StepIdempotent(s: State, hits: seq<Hit>)
    requires WellFormed(s) && ValidHits(|s.scales|, hits)
    ensures Step(Step(s, hits), hits) == Step(s, hits)
    ensures LabelWrites(Step(s, hits), hits) == []
  {
  }

  /** After any sequence of frames from the initial state, the scales are
      those of the last frame's nearest hit. */
  lemma {:induction false} RunFromInitial(n: nat, frames: seq<seq<Hit>>)
    requires ValidFrames(n, frames)
    ensures Run(Initial(n), frames) == State(LastNearest(frames), EmphasisScales(n, SphereOf(LastNearest(frames))))
  {
    if |frames| > 0 {
      var prefix := frames[..|frames| - 1];
      assert ValidFrames(n, prefix);
      RunFromInitial(n, prefix);
      StepFromConsistent(Run(Initial(n), prefix), frames[|frames| - 1]);
    }
  }

  /** In a consistent state the emphasised nodes are the hovered sphere's
      node alone, or none when a label or nothing is hovered. */
  lemma EmphasisedIsHovered(s: State)
    requires Consistent(s)
    ensures Emphasised(s) == AsSet(SphereOf(s.hovered))
  {
  }

  /** Hover exclusivity: after any frames from the start, at most one node is
      emphasised, and a node is emphasised exactly when its sphere is the
      hovered object; hovering a label emphasises nothing. */
  lemma HoverExclusive(n: nat, frames: seq<seq<Hit>>)
    requires ValidFrames(n, frames)
    ensures var r := Run(Initial(n), frames);
      && |Emphasised(r)| <= 1
      && (forall i :: 0 <= i < n ==> (r.scales[i] == HoverScale <==> r.hovered == Some(Sphere(i))))
  {
    var r := Run(Initial(n), frames);
    RunFromInitial(n, frames);
    EmphasisedIsHovered(r);
    forall i | 0 <= i < n
      ensures r.scales[i] == HoverScale <==> r.hovered == Some(Sphere(i))
    {
      assert r.scales[i] == EmphasisScales(n, SphereOf(r.hovered))[i];
    }
  }

  datatype ClickResult = ClickResult(state: State, selected: Option<Hit>)

  /** A click selects the hovered object, if any, and changes no state. */
  function Click(s: State): (r: ClickResult)
    ensures r.state == s
    ensures r.selected.Some? <==> s.hovered.Some?
    ensures r.selected.Some? ==> r.selected.value == s.hovered.value
    // in a consistent state a selected sphere is the emphasised one
    ensures Consistent(s) && r.selected.Some? && r.selected.value.Sphere? ==>
              r.selected.value.node < |s.scales| && s.scales[r.selected.value.node] == HoverScale
  {
    if s.hovered.Some? then ClickResult(s, Some(s.hovered.value))
    else ClickResult(s, None)
  }

  /** The collection name the tooltip and the selection alert show for a
      hit: a sphere carries its collection's name; a label sprite carries no
      name, so JavaScript shows `undefined` (modelled as None). */
  function HitName(h: Hit, names: seq<string>): (r: Option<string>)
    requires h.Sphere? ==> h.node < |names|
    ensures r.Some? <==> h.Sphere?
    ensures h.Sphere? ==> r == Some(names[h.node])
  {
    match h
    case Sphere(i) => Some(names[i])
    case Label(_) => None
  }

  /** The input a session delivers: animation frames and clicks, in order. */
  datatype Event = Frame(hits: seq<Hit>) | Tap

  predicate ValidEvents(n: nat, events: seq<Event>) {
    forall k :: 0 <= k < |events| && events[k].Frame? ==> ValidHits(n, events[k].hits)
  }

  /** The hit lists of the frame events, in order. */
  function FramesOf(events: seq<Event>): (frames: seq<seq<Hit>>)
    ensures |frames| <= |events|
    decreases |events|
  {
    if |events| == 0 then []
    else
      var last := events[|events| - 1];
      FramesOf(events[..|events| - 1]) + (if last.Frame? then [last.hits] else [])
  }

  datatype Session = Session(state: State, selections: seq<Hit>)

  /** A session: frames move the hover state, clicks append their selection. */
  function Simulate(s: State, events: seq<Event>): (r: Session)
    requires WellFormed(s) && ValidEvents(|s.scales|, events)
    ensures WellFormed(r.state) && |r.state.scales| == |s.scales|
    ensures |r.selections| <= |events|
    decreases |events|
  {
    if |events| == 0 then Session(s, [])
    else
      var prev := Simulate(s, events[..|events| - 1]);
      match events[|events| - 1]
      case Frame(hits) => Session(Step(prev.state, hits), prev.selections)
      case Tap =>
        var c := Click(prev.state);
        Session(c.state, prev.selections + (if c.selected.Some? then [c.selected.value] else []))
  }

  lemma {:induction false} FramesOfValid(n: nat, events: seq<Event>)
    requires ValidEvents(n, events)
    ensures ValidFrames(n, FramesOf(events))
    decreases |events|
  {
    if |events| > 0 {
      var prefix := events[..|events| - 1];
      assert ValidEvents(n, prefix);
      FramesOfValid(n, prefix);
    }
  }

  /** Clicks are inert: a session ends in the state its frames alone reach. */
  lemma {:induction false} ClicksAreInert(s: State, events: seq<Event>)
    requires WellFormed(s) && ValidEvents(|s.scales|, events)
    ensures ValidFrames(|s.scales|, FramesOf(events))
    ensures Simulate(s, events).state == Run(s, FramesOf(events))
    decreases |events|
  {
    FramesOfValid(|s.scales|, events);
    if |events| > 0 {
      var prefix := events[..|events| - 1];
      assert ValidEvents(|s.scales|, prefix);
      ClicksAreInert(s, prefix);
      var f := FramesOf(prefix);
      var last := events[|events| - 1];
      if last.Frame? {
        assert FramesOf(events) == f + [last.hits];
        assert FramesOf(events)[..|FramesOf(events)| - 1] == f;
      } else {
        assert FramesOf(events) == f;
      }
    }
  }

  /** A click at any point of a session from the start selects exactly the
      nearest hit of the latest frame, and nothing when that frame hit
      nothing (or no frame has run yet). */
  lemma ClickSelectsLastNearest(n: nat, events: seq<Event>)
    requires ValidEvents(n, events)
    ensures ValidEvents(n, events + [Tap])
    ensures var before := Simulate(Initial(n), events);
      var after := Simulate(Initial(n), events + [Tap]);
      && after.state == before.state
      && after.selections == before.selections +
           (if LastNearest(FramesOf(events)).Some? then [LastNearest(FramesOf(events)).value] else [])
  {
    var all := events + [Tap];
    assert all[..|all| - 1] == events;
    ClicksAreInert(Initial(n), events);
    RunFromInitial(n, FramesOf(events));
  }

}
