/** Flying the camera to a node chosen in the side list: the camera is cut
    (not animated) to a fixed standoff in front of the node along +Z, and the
    orbit controls pivot on the node from then on. */
module Focus {

  import opened Geometry

  /** Where the camera sits relative to the focused node. */
  const Standoff: Vec3 := Vec3(0.0, 0.0, 30.0)

  /** The camera position and the orbit controls' target (the pivot). */
  datatype Camera = Camera(position: Vec3, target: Vec3)

  function FocusOnNode(cam: Camera, node: Vec3): (r: Camera)
    ensures r.target == node
    ensures Sub(r.position, r.target) == Standoff
    ensures IsDistance(30.0, r.position, node)
  {
    Camera(Add(node, Standoff), node)
  }

  /** The result does not depend on where the camera was. */
  lemma FocusIgnoresPriorCamera(c1: Camera, c2: Camera, node: Vec3)
    ensures FocusOnNode(c1, node) == FocusOnNode(c2, node)
  {
  }

  /** The last focus request wins; an earlier one leaves no trace. */
  lemma FocusLastRequestWins(c: Camera, a: Vec3, b: Vec3)
    ensures FocusOnNode(FocusOnNode(c, a), b) == FocusOnNode(c, b)
  {
  }

  /** The camera is exactly placed: the focused position is the node moved by
      the standoff, and moving the camera there is the only way to focus. */
  lemma FocusCharacterised(c: Camera, node: Vec3, r: Camera)
    ensures r == FocusOnNode(c, node) <==> r.target == node && Sub(r.position, node) == Standoff
  {
  }

}
