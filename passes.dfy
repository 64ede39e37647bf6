/**
 * A measure pass followed by a layout pass, as the platform runs them, and
 * what holds of the pair.
 */
module Passes {
  import opened Options
  import opened Geometry
  import opened FrameTypes
  import opened MeasurePass
  import opened LayoutPass

  /**
   * The content children's visibilities after a layout pass that settles
   * child k: it becomes VISIBLE when expanded and INVISIBLE when collapsed,
   * and every other child keeps its visibility. Nothing changes when there is
   * no child k.
   */
  function SettledAt(show: bool, vis: seq<Vis>, k: nat): (v: seq<Vis>)
    ensures |v| == |vis|
    ensures forall j :: 0 <= j < |vis| && j != k ==> v[j] == vis[j]
    ensures k < |vis| ==> v[k] == (if show then Visible else Invisible) && v[k] != Gone
  {
    if k < |vis| then vis[k := if show then Visible else Invisible] else vis
  }

  /**
   * One measure pass and one layout pass as the source runs them: the metrics,
   * the measure report, the rectangles, and the content visibilities the next
   * measure pass sees. The measure pass reads the first content child that is
   * not GONE; the layout pass places, shows or hides the first content child.
   */
  function Pass(d: Decor, m: Metrics, show: bool, labelSize: Size, vis: seq<Vis>, sizes: seq<Size>,
                given: Size, frame: Rect, pad: Padding): (Metrics, MeasureOut, Regions, seq<Vis>)
    requires |sizes| == |vis|
  {
    var me := Measured(d, m, show, labelSize, vis, sizes, given, pad);
    var ar := Arranged(d, me.0, show, |vis| > 0, frame, pad);
    (ar.0, me.1, ar.1, SettledAt(show, vis, 0))
  }

  /**
   * Collapsing and expanding again, with a measure and a layout pass after
   * each toggle and the visibilities each layout pass writes carried into the
   * next measure pass, gives back exactly the metrics, the measure report, the
   * rectangles and the visibilities of the first passes, provided the first
   * content child is not GONE to begin with. The collapsed passes may see
   * another box, other measure specs and other child sizes (`frame'`,
   * `given'`, `sizes'`), as when a wrap-content parent shrinks the frame.
   */
  lemma ToggleTwiceRestores(d: Decor, m: Metrics, show: bool, labelSize: Size, vis: seq<Vis>, sizes: seq<Size>,
                            given: Size, frame: Rect, pad: Padding, sizes': seq<Size>, given': Size, frame': Rect)
    requires |sizes| == |vis| && |sizes'| == |vis|
    requires vis != [] ==> vis[0] != Gone
    ensures var first := Pass(d, m, show, labelSize, vis, sizes, given, frame, pad);
            var toggled := Pass(d, first.0, !show, labelSize, first.3, sizes', given', frame', pad);
            Pass(d, toggled.0, show, labelSize, toggled.3, sizes, given, frame, pad) == first
  {
    var me1 := Measured(d, m, show, labelSize, vis, sizes, given, pad);
    var a1 := Arranged(d, me1.0, show, |vis| > 0, frame, pad);
    var v1 := SettledAt(show, vis, 0);
    var me2 := Measured(d, a1.0, !show, labelSize, v1, sizes', given', pad);
    var a2 := Arranged(d, me2.0, !show, |vis| > 0, frame', pad);
    var v2 := SettledAt(!show, v1, 0);
    FirstShownUnique(vis, 0);
    FirstShownUnique(v2, 0);
    // the toggled passes keep the top row, so the last measure pass starts from the first one's result
    assert a2.0.topH == me1.0.topH;
    MeasuredSeesTopRow(d, a2.0, me1.0, show, labelSize, v2, vis, sizes, given, pad);
    MeasureIdempotent(d, m, show, labelSize, vis, sizes, given, pad);
    assert SettledAt(show, v2, 0) == v1;
  }

  /**
   * A measure pass sees the old metrics only through the top row height, and
   * the visibilities only through the first content child that is not GONE.
   */
  lemma MeasuredSeesTopRow(d: Decor, m: Metrics, m': Metrics, show: bool, labelSize: Size, vis: seq<Vis>, vis': seq<Vis>,
                           sizes: seq<Size>, given: Size, pad: Padding)
    requires |sizes| == |vis| == |vis'| && FirstShown(vis) == FirstShown(vis') && m.topH == m'.topH
    ensures Measured(d, m, show, labelSize, vis, sizes, given, pad) == Measured(d, m', show, labelSize, vis', sizes, given, pad)
  {
  }

  /**
   * When the first content child is GONE and a later one is shown, toggling
   * twice does not restore the first passes: the first measure pass measures
   * the second child, the layout pass makes the first child VISIBLE, and from
   * then on the measure pass measures the first child instead.
   */
  lemma ToggleTwiceFirstGone()
    ensures var d := Decor(4, 4, 10, LABEL_MIDDLE, 0);
            var m := Metrics(20, 0, 0, 0, 0);
            var vis := [Gone, Visible];
            var sizes := [Size(100, 100), Size(50, 60)];
            var given, frame, pad := Size(300, 300), Rect(0, 0, 300, 300), Padding(0, 0, 0, 0);
            var first := Pass(d, m, true, Size(80, 16), vis, sizes, given, frame, pad);
            var toggled := Pass(d, first.0, false, Size(80, 16), first.3, sizes, given, frame, pad);
            var back := Pass(d, toggled.0, true, Size(80, 16), toggled.3, sizes, given, frame, pad);
            first.1.probe == Some(Probe(1, Size(292, 276))) && first.0.customH == 60 &&
            back.1.probe == Some(Probe(0, Size(292, 276))) && back.0.customH == 100 &&
            back.2.content != first.2.content
  {
  }

  /**
   * One measure pass and one layout pass in which the layout pass places,
   * shows or hides the child the measure pass measured, the first content
   * child that is not GONE, and nothing when every content child is GONE.
   */
  function MatchedPass(d: Decor, m: Metrics, show: bool, labelSize: Size, vis: seq<Vis>, sizes: seq<Size>,
                       given: Size, frame: Rect, pad: Padding): (Metrics, MeasureOut, Regions, seq<Vis>)
    requires |sizes| == |vis|
  {
    var me := Measured(d, m, show, labelSize, vis, sizes, given, pad);
    var k := FirstShown(vis);
    var ar := Arranged(d, me.0, show, k < |vis|, frame, pad);
    (ar.0, me.1, ar.1, SettledAt(show, vis, k))
  }

  /** Settling the first child that is not GONE keeps it the first child that is not GONE. */
  lemma SettledKeepsFirstShown(show: bool, vis: seq<Vis>)
    ensures FirstShown(SettledAt(show, vis, FirstShown(vis))) == FirstShown(vis)
  {
  }

  /**
   * When the layout pass acts on the child the measure pass measured,
   * collapsing and expanding again restores the first passes whatever the
   * content children's visibilities, and whatever box, measure specs and
   * child sizes the collapsed passes see.
   */
  lemma MatchedToggleTwiceRestores(d: Decor, m: Metrics, show: bool, labelSize: Size, vis: seq<Vis>,
                                   sizes: seq<Size>, given: Size, frame: Rect, pad: Padding,
                                   sizes': seq<Size>, given': Size, frame': Rect)
    requires |sizes| == |vis| && |sizes'| == |vis|
    ensures var first := MatchedPass(d, m, show, labelSize, vis, sizes, given, frame, pad);
            var toggled := MatchedPass(d, first.0, !show, labelSize, first.3, sizes', given', frame', pad);
            MatchedPass(d, toggled.0, show, labelSize, toggled.3, sizes, given, frame, pad) == first
  {
    var k := FirstShown(vis);
    var me1 := Measured(d, m, show, labelSize, vis, sizes, given, pad);
    var a1 := Arranged(d, me1.0, show, k < |vis|, frame, pad);
    var v1 := SettledAt(show, vis, k);
    SettledKeepsFirstShown(show, vis);
    var me2 := Measured(d, a1.0, !show, labelSize, v1, sizes', given', pad);
    var a2 := Arranged(d, me2.0, !show, k < |vis|, frame', pad);
    var v2 := SettledAt(!show, v1, k);
    SettledKeepsFirstShown(!show, v1);
    assert a2.0.topH == me1.0.topH;
    MeasuredSeesTopRow(d, a2.0, me1.0, show, labelSize, v2, vis, sizes, given, pad);
    MeasureIdempotent(d, m, show, labelSize, vis, sizes, given, pad);
    assert SettledAt(show, v2, k) == v1;
  }

  /**
   * Collapsed, the placeholder's rectangle is exactly the placeholder height
   * tall when that height fits the inner box below the top row and above the
   * bottom row, and it is raised by half that height from the top row.
   */
  lemma CollapsedPlaceholderHeight(d: Decor, m: Metrics, labelSize: Size, vis: seq<Vis>, sizes: seq<Size>,
                                   given: Size, frame: Rect, pad: Padding)
    requires |sizes| == |vis| && |vis| > 0
    requires var topH := Measured(d, m, false, labelSize, vis, sizes, given, pad).0.topH;
             d.placeholder <= InnerHeight(frame, pad) - topH - d.bottom
    ensures var p := Pass(d, m, false, labelSize, vis, sizes, given, frame, pad);
            p.2.content.None? && p.2.placeholder.Some? &&
            p.2.placeholder.value.Height() == d.placeholder &&
            p.2.placeholder.value.top == pad.top + p.0.topH - Half(d.placeholder)
  {
    var me := Measured(d, m, false, labelSize, vis, sizes, given, pad);
    ContentBand(d, me.0, false, true, frame, pad);
  }

  /**
   * Expanded, the content rectangle starts at the top row and is as tall as
   * the first shown content child measured, when that height fits.
   */
  lemma ExpandedContentHeight(d: Decor, m: Metrics, labelSize: Size, vis: seq<Vis>, sizes: seq<Size>,
                              given: Size, frame: Rect, pad: Padding)
    requires |sizes| == |vis| && |vis| > 0
    requires var me := Measured(d, m, true, labelSize, vis, sizes, given, pad);
             me.1.probe.Some? &&
             sizes[me.1.probe.value.index].height <= InnerHeight(frame, pad) - me.0.topH - d.bottom
    ensures var p := Pass(d, m, true, labelSize, vis, sizes, given, frame, pad);
            p.1.probe.Some? && p.2.placeholder.None? && p.2.content.Some? &&
            p.2.content.value.top == pad.top + p.0.topH &&
            p.2.content.value.Height() == sizes[p.1.probe.value.index].height
  {
    var me := Measured(d, m, true, labelSize, vis, sizes, given, pad);
    ContentBand(d, me.0, true, true, frame, pad);
  }
}
