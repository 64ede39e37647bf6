/**
 * The measure pass: from the label's intrinsic size, the decoration sizes and
 * the first content child that is not GONE, the new top row height, the
 * content allocation and the size the frame asks for before the platform
 * resolves it against the measure specs.
 */
module MeasurePass {
  import opened Options
  import opened Geometry
  import opened FrameTypes

  /** Which content child was measured (counting from the first one), and against what size. */
  datatype Probe = Probe(index: nat, constraint: Size)

  /** What a measure pass reports besides the fields it writes. */
  datatype MeasureOut = MeasureOut(probe: Option<Probe>, required: Size)

  /** The position of the first content child that is not GONE, or |vis| if there is none. */
  function FirstShown(vis: seq<Vis>): (k: nat)
    ensures k <= |vis|
    ensures forall j :: 0 <= j < k ==> vis[j] == Gone
    ensures k < |vis| ==> vis[k] != Gone
    decreases |vis|
  {
    if vis == [] || vis[0] != Gone then 0 else 1 + FirstShown(vis[1..])
  }

  /** The characterisation of FirstShown determines it: any such position is the one. */
  lemma FirstShownUnique(vis: seq<Vis>, k: nat)
    requires k <= |vis|
    requires forall j :: 0 <= j < k ==> vis[j] == Gone
    requires k < |vis| ==> vis[k] != Gone
    ensures FirstShown(vis) == k
  {
  }

  /**
   * One measure pass on the metrics m. `labelSize` is the label's unconstrained
   * size, `sizes[i]` the size content child i reports when measured, `given`
   * the sizes of the two measure specs, `pad` the padding.
   */
  function Measured(d: Decor, m: Metrics, show: bool, labelSize: Size, vis: seq<Vis>,
                    sizes: seq<Size>, given: Size, pad: Padding): (res: (Metrics, MeasureOut))
    requires |sizes| == |vis|
    // the top row is raised to the label height, never lowered
    ensures res.0.topH >= labelSize.height && res.0.topH >= m.topH
    ensures res.0.topH == m.topH || res.0.topH == labelSize.height
    ensures res.0.tvW == labelSize.width && res.0.tvH == labelSize.height
    // a child is measured exactly when some content child is not GONE, and it is the first such
    ensures res.1.probe.Some? <==> exists j :: 0 <= j < |vis| && vis[j] != Gone
    ensures res.1.probe.Some? ==>
      var k := res.1.probe.value.index;
      k < |vis| && vis[k] != Gone && (forall j :: 0 <= j < k ==> vis[j] == Gone) &&
      res.1.probe.value.constraint ==
        Size(given.width - 2 * d.side, given.height - res.0.topH - d.bottom)
    // the allocation: the child's size when expanded, the placeholder height when collapsed
    ensures res.1.probe.Some? && show ==> res.0.customW == sizes[res.1.probe.value.index].width &&
                                          res.0.customH == sizes[res.1.probe.value.index].height
    ensures res.1.probe.Some? && !show ==> res.0.customW == sizes[res.1.probe.value.index].width
    ensures !show ==> res.0.customH == d.placeholder
    // with no child to measure, the label-derived default size stands in for it
    ensures res.1.probe.None? ==> res.0.customW == labelSize.width + 2 * d.side
    ensures res.1.probe.None? && show ==> res.0.customH == res.0.topH + d.bottom + d.placeholder
    // the size asked for: allocation plus decoration plus padding
    ensures res.1.required ==
      Size(res.0.customW + 2 * d.side + pad.left + pad.right,
           res.0.customH + res.0.topH + d.bottom + pad.top + pad.bottom)
  {
    var topH := if m.topH < labelSize.height then labelSize.height else m.topH;
    var k := FirstShown(vis);
    var maxW := if k < |vis| then sizes[k].width else labelSize.width + 2 * d.side;
    var maxH := if k < |vis| then sizes[k].height else topH + d.bottom + d.placeholder;
    var customH := if show then maxH else d.placeholder;
    var probe := if k < |vis| then Some(Probe(k, Size(given.width - 2 * d.side, given.height - topH - d.bottom)))
                 else None;
    (Metrics(topH, labelSize.width, labelSize.height, maxW, customH),
     MeasureOut(probe, Size(maxW + 2 * d.side + pad.left + pad.right, customH + topH + d.bottom + pad.top + pad.bottom)))
  }

  /** Measuring twice with the same inputs and nothing changed in between gives the same result. */
  lemma MeasureIdempotent(d: Decor, m: Metrics, show: bool, labelSize: Size, vis: seq<Vis>,
                          sizes: seq<Size>, given: Size, pad: Padding)
    requires |sizes| == |vis|
    ensures var once := Measured(d, m, show, labelSize, vis, sizes, given, pad);
            Measured(d, once.0, show, labelSize, vis, sizes, given, pad) == once
  {
  }

  /**
   * The frame never asks for less height than its top and bottom rows and its
   * vertical padding, once the decoration and the children's sizes are not negative.
   */
  lemma RequiredCoversRows(d: Decor, m: Metrics, show: bool, labelSize: Size, vis: seq<Vis>,
                           sizes: seq<Size>, given: Size, pad: Padding)
    requires |sizes| == |vis|
    requires d.bottom >= 0 && d.placeholder >= 0 && labelSize.height >= 0
    requires forall i :: 0 <= i < |sizes| ==> sizes[i].height >= 0
    ensures var res := Measured(d, m, show, labelSize, vis, sizes, given, pad);
            res.1.required.height >= res.0.topH + d.bottom + pad.top + pad.bottom
  {
  }
}
