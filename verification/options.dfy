/** The optional value used wherever the viewer holds a JavaScript `null`
    (no hovered node) or an absent property (a sprite parameter left out). */
module Options {

  datatype Option<+T> = None | Some(value: T)

}
