/**
 * The layout pass: from the final box and the padding, the clamped label
 * width and content allocation and one rectangle per region, every one of
 * them in the coordinates of the box with its origin moved by the padding.
 */
module LayoutPass {
  import opened Options
  import opened Geometry
  import opened FrameTypes

  /**
   * The rectangles a layout pass assigns: the two top corners, the label, the
   * two side strips, the content child or the "..." placeholder (each only
   * when a content child exists, and only in its own state), and the two
   * bottom corners.
   */
  datatype Regions = Regions(upLeft: Rect, text: Rect, upRight: Rect,
                             left: Rect, right: Rect,
                             content: Option<Rect>, placeholder: Option<Rect>,
                             bottomLeft: Rect, bottomRight: Rect)

  /**
   * The widths of the top-left and top-right gaps beside a label of width tvW
   * in an inner box of width cw, for alignment code pos; `width` is the whole
   * box's width, whose half both gaps keep under an unknown code.
   */
  function Gaps(pos: int, width: int, cw: int, tvW: int, side: int, offset: int): (g: (int, int))
    // the top row tiles the inner width exactly
    ensures KnownAlignment(pos) ==> g.0 + tvW + g.1 == cw
    // LEFT and RIGHT anchor the gap on their side, whatever the label or the box
    ensures pos == LABEL_LEFT ==> g.0 == side + offset
    ensures pos == LABEL_RIGHT ==> g.1 == side + offset
    // MIDDLE centres the label, moved by the offset, to within the pixel lost by rounding toward zero
    ensures pos == LABEL_MIDDLE && cw - tvW >= 0 ==> 0 <= (g.1 + offset) - (g.0 - offset) <= 1
    ensures pos == LABEL_MIDDLE && cw - tvW < 0 ==> -1 <= (g.1 + offset) - (g.0 - offset) <= 0
    ensures !KnownAlignment(pos) ==> g.0 == Half(width) && g.1 == Half(width)
  {
    if pos == LABEL_MIDDLE then
      var ul := Half(cw - tvW) + offset;
      (ul, cw - ul - tvW)
    else if pos == LABEL_LEFT then
      var ul := side + offset;
      (ul, cw - ul - tvW)
    else if pos == LABEL_RIGHT then
      var ur := side + offset;
      (cw - ur - tvW, ur)
    else
      (Half(width), Half(width))
  }

  /** childLayout: a rectangle of the inner box placed in the frame's coordinates. */
  function Place(pad: Padding, l: int, t: int, r: int, b: int): Rect
  {
    Shift(Rect(l, t, r, b), pad.left, pad.top)
  }

  /** The width of the inner box, mChildRight - mChildLeft. */
  function InnerWidth(frame: Rect, pad: Padding): int
  {
    (frame.right - frame.left - pad.right) - pad.left
  }

  /** The height of the inner box, mChildBottom - mChildTop. */
  function InnerHeight(frame: Rect, pad: Padding): int
  {
    (frame.bottom - frame.top - pad.bottom) - pad.top
  }

  /** The three clamps of a layout pass: the label width, then the content height and width. */
  function Clamped(d: Decor, m: Metrics, cw: int, ch: int): Metrics
  {
    m.(tvW := AtMost(m.tvW, cw - 2 * d.side),
       customH := AtMost(m.customH, ch - d.bottom - m.topH),
       customW := AtMost(m.customW, cw - 2 * d.side))
  }

  /**
   * The top-left corner, the label and the top-right corner, for a label
   * already clamped to tvW; `width` is the whole box's width.
   */
  function TopRow(d: Decor, topH: int, tvW: int, tvH: int, width: int, cw: int, pad: Padding): (Rect, Rect, Rect)
  {
    var g := Gaps(d.labelPos, width, cw, tvW, d.side, d.labelOffset);
    (Place(pad, 0, Half(topH), g.0, tvH),
     Place(pad, g.0, 0, g.0 + tvW, tvH),
     Place(pad, cw - g.1, Half(topH), cw, tvH))
  }

  /**
   * The content rectangle when expanded and the placeholder rectangle when
   * collapsed, each only when a content child exists; the placeholder is
   * raised by half its own height.
   */
  function ContentSlots(d: Decor, show: bool, hasContent: bool, topH: int, customH: int, cw: int, pad: Padding)
    : (Option<Rect>, Option<Rect>)
  {
    (if show && hasContent then Some(Place(pad, d.side, topH, cw - d.side, topH + customH)) else None,
     if !show && hasContent
     then Some(Place(pad, d.side, topH - Half(d.placeholder), cw - d.side, topH + customH - Half(d.placeholder)))
     else None)
  }

  /**
   * Below the top row: the two side strips, the content and placeholder
   * slots and the two bottom corners, for metrics m that are already clamped;
   * cw and ch are the inner box's width and height.
   */
  function Band(d: Decor, m: Metrics, show: bool, hasContent: bool, cw: int, ch: int, pad: Padding)
    : (Rect, Rect, Option<Rect>, Option<Rect>, Rect, Rect)
  {
    var band := m.topH + m.customH;
    var slots := ContentSlots(d, show, hasContent, m.topH, m.customH, cw, pad);
    (Place(pad, 0, m.tvH, d.side, band), Place(pad, cw - d.side, m.topH, cw, band),
     slots.0, slots.1,
     Place(pad, 0, band, Half(cw), ch), Place(pad, Half(cw), band, cw, ch))
  }

  /**
   * The rectangles of a layout pass for metrics m that are already clamped;
   * `width` is the whole box's width, cw and ch the inner box's.
   */
  function RegionsFor(d: Decor, m: Metrics, show: bool, hasContent: bool, width: int, cw: int, ch: int, pad: Padding): Regions
  {
    var top := TopRow(d, m.topH, m.tvW, m.tvH, width, cw, pad);
    var below := Band(d, m, show, hasContent, cw, ch, pad);
    Regions(
      upLeft := top.0, text := top.1, upRight := top.2,
      left := below.0, right := below.1,
      content := below.2, placeholder := below.3,
      bottomLeft := below.4, bottomRight := below.5)
  }

  /**
   * One layout pass on the metrics m for the box `frame` (onLayout's l, t, r, b).
   * `hasContent` says whether a content child exists; `show` is the expanded state.
   */
  function Arranged(d: Decor, m: Metrics, show: bool, hasContent: bool, frame: Rect, pad: Padding): (Metrics, Regions)
  {
    var cw := InnerWidth(frame, pad);
    var ch := InnerHeight(frame, pad);
    var m' := Clamped(d, m, cw, ch);
    (m', RegionsFor(d, m', show, hasContent, frame.right - frame.left, cw, ch, pad))
  }

  /**
   * The label width and the content allocation are clamped to the inner box:
   * each is left alone when it already fits and set to its bound when it does not.
   */
  lemma ClampsFit(d: Decor, m: Metrics, show: bool, hasContent: bool, frame: Rect, pad: Padding)
    ensures var cw, ch := InnerWidth(frame, pad), InnerHeight(frame, pad);
            var m' := Arranged(d, m, show, hasContent, frame, pad).0;
            m'.tvW <= cw - 2 * d.side && (m.tvW <= cw - 2 * d.side ==> m'.tvW == m.tvW) &&
            (m.tvW > cw - 2 * d.side ==> m'.tvW == cw - 2 * d.side) &&
            m'.customH <= ch - m.topH - d.bottom && (m.customH <= ch - m.topH - d.bottom ==> m'.customH == m.customH) &&
            (m.customH > ch - m.topH - d.bottom ==> m'.customH == ch - m.topH - d.bottom) &&
            m'.customW <= cw - 2 * d.side && (m.customW <= cw - 2 * d.side ==> m'.customW == m.customW) &&
            (m.customW > cw - 2 * d.side ==> m'.customW == cw - 2 * d.side) &&
            m'.topH == m.topH && m'.tvH == m.tvH
  {
  }

  /**
   * Under the three alignment codes the top row tiles the inner width: the
   * top-left corner starts at the left padding and ends where the label starts,
   * the top-right corner starts where the label ends and ends at the inner
   * right edge. Both corners hang from half the top row height to the label
   * height, and the label is as wide as the clamped label width.
   */
  lemma TopRowTiles(d: Decor, m: Metrics, show: bool, hasContent: bool, frame: Rect, pad: Padding)
    requires KnownAlignment(d.labelPos)
    ensures var res := Arranged(d, m, show, hasContent, frame, pad);
            var r := res.1;
            r.text.Width() == res.0.tvW &&
            r.upLeft.left == pad.left && r.upLeft.right == r.text.left &&
            r.text.right == r.upRight.left && r.upRight.right == pad.left + InnerWidth(frame, pad) &&
            r.upLeft.top == r.upRight.top == pad.top + Half(m.topH) &&
            r.upLeft.bottom == r.upRight.bottom == r.text.bottom == pad.top + m.tvH &&
            r.text.top == pad.top
  {
  }

  /** Under an unknown alignment code both top corners are half the whole box wide. */
  lemma UnknownAlignmentHalves(d: Decor, m: Metrics, show: bool, hasContent: bool, frame: Rect, pad: Padding)
    requires !KnownAlignment(d.labelPos)
    ensures var r := Arranged(d, m, show, hasContent, frame, pad).1;
            r.upLeft.Width() == Half(frame.right - frame.left) &&
            r.upRight.Width() == Half(frame.right - frame.left)
  {
  }

  /**
   * LEFT puts the label at side + offset from the inner left edge, RIGHT ends
   * it at side + offset from the inner right edge, whatever the metrics.
   */
  lemma EdgeAnchors(d: Decor, m: Metrics, show: bool, hasContent: bool, frame: Rect, pad: Padding)
    ensures var r := Arranged(d, m, show, hasContent, frame, pad).1;
            (d.labelPos == LABEL_LEFT ==> r.text.left == pad.left + d.side + d.labelOffset) &&
            (d.labelPos == LABEL_RIGHT ==>
               r.text.right == pad.left + InnerWidth(frame, pad) - (d.side + d.labelOffset))
  {
  }

  /**
   * MIDDLE with non-negative side strips centres the label: the two gaps,
   * corrected by the offset, differ by at most the one pixel of rounding.
   */
  lemma MiddleCentres(d: Decor, m: Metrics, show: bool, hasContent: bool, frame: Rect, pad: Padding)
    requires d.labelPos == LABEL_MIDDLE && d.side >= 0
    ensures var r := Arranged(d, m, show, hasContent, frame, pad).1;
            0 <= (r.upRight.Width() + d.labelOffset) - (r.upLeft.Width() - d.labelOffset) <= 1
  {
    var cw := InnerWidth(frame, pad);
    var tvW := AtMost(m.tvW, cw - 2 * d.side);
    assert cw - tvW >= 0;
  }

  /**
   * The side strips and the content rectangle all end at the bottom of the
   * content band, top + customH; the right strip and the content start at the
   * top row height, the left strip at the label height. The strips are side
   * wide at the two inner edges and the content fills the width between them.
   */
  lemma ContentBand(d: Decor, m: Metrics, show: bool, hasContent: bool, frame: Rect, pad: Padding)
    ensures var res := Arranged(d, m, show, hasContent, frame, pad);
            var r, band, cw := res.1, pad.top + m.topH + res.0.customH, InnerWidth(frame, pad);
            r.left == Rect(pad.left, pad.top + m.tvH, pad.left + d.side, band) &&
            r.right == Rect(pad.left + cw - d.side, pad.top + m.topH, pad.left + cw, band) &&
            (r.content.Some? ==> r.content.value == Rect(r.left.right, r.right.top, r.right.left, band)) &&
            (r.placeholder.Some? ==>
               r.placeholder.value.Height() == res.0.customH &&
               r.placeholder.value.top == pad.top + m.topH - Half(d.placeholder) &&
               r.placeholder.value.left == r.left.right && r.placeholder.value.right == r.right.left)
  {
  }

  /** The content rectangle is laid out only when expanded, the placeholder only when collapsed. */
  lemma ContentOrPlaceholder(d: Decor, m: Metrics, show: bool, hasContent: bool, frame: Rect, pad: Padding)
    ensures var r := Arranged(d, m, show, hasContent, frame, pad).1;
            (r.content.Some? <==> show && hasContent) &&
            (r.placeholder.Some? <==> !show && hasContent)
  {
  }

  /**
   * The bottom corners split the strip below the content band at half the
   * inner width, and together cover the inner width from the band to the inner bottom.
   */
  lemma BottomSplit(d: Decor, m: Metrics, show: bool, hasContent: bool, frame: Rect, pad: Padding)
    ensures var res := Arranged(d, m, show, hasContent, frame, pad);
            var r, band := res.1, pad.top + m.topH + res.0.customH;
            r.bottomLeft.left == pad.left && r.bottomLeft.right == r.bottomRight.left &&
            r.bottomRight.right == pad.left + InnerWidth(frame, pad) &&
            r.bottomLeft.right == pad.left + Half(InnerWidth(frame, pad)) &&
            r.bottomLeft.top == r.bottomRight.top == band &&
            r.bottomLeft.bottom == r.bottomRight.bottom == pad.top + InnerHeight(frame, pad)
  {
  }

  /**
   * A second layout pass with no measure pass in between changes nothing: the
   * clamps are already met, so the metrics and every rectangle stay the same.
   */
  lemma ArrangeIdempotent(d: Decor, m: Metrics, show: bool, hasContent: bool, frame: Rect, pad: Padding)
    ensures var once := Arranged(d, m, show, hasContent, frame, pad);
            Arranged(d, once.0, show, hasContent, frame, pad) == once
  {
  }

  /**
   * A worked case: a 300-pixel box without padding, side strips 4, a label 80
   * wide, aligned in the middle with no offset. The gap is computed from the
   * whole inner width, (300 - 80) / 2 = 110, so the label spans [110, 190].
   */
  lemma MiddleWorkedCase()
    ensures var d := Decor(4, 12, 15, LABEL_MIDDLE, 0);
            var r := Arranged(d, Metrics(24, 80, 24, 0, 0), true, true, Rect(0, 0, 300, 200), Padding(0, 0, 0, 0)).1;
            r.upLeft.left == 0 && r.upLeft.right == 110 && r.text == Rect(110, 0, 190, 24) &&
            r.upRight.left == 190 && r.upRight.right == 300
  {
  }
}
