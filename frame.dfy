/** The entities of the label frame that both passes share. */
module FrameTypes {

  /** A view's visibility: VISIBLE, INVISIBLE (keeps its space) or GONE. */
  datatype Vis = Visible | Invisible | Gone

  /** The label alignment codes; any other code keeps both top gaps at half the width. */
  const LABEL_MIDDLE: int := 0
  const LABEL_LEFT: int := 1
  const LABEL_RIGHT: int := 2

  function KnownAlignment(pos: int): bool
  {
    pos == LABEL_MIDDLE || pos == LABEL_LEFT || pos == LABEL_RIGHT
  }

  /**
   * The frame's configuration once converted to pixels, fixed after construction:
   * the side strip width, the bottom row height, the placeholder height used
   * while collapsed, and the label alignment and offset.
   */
  datatype Decor = Decor(side: int, bottom: int, placeholder: int, labelPos: int, labelOffset: int)

  /**
   * The integer fields the measure pass writes and the layout pass re-clamps:
   * the top row height, the label's width and height, and the content allocation.
   */
  datatype Metrics = Metrics(topH: int, tvW: int, tvH: int, customW: int, customH: int)
}
