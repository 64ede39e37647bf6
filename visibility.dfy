/**
 * The show/hide state machine around the content child: what a layout pass
 * does to the visibility of the content child and of the "..." placeholder,
 * which transition it starts, and what the two animation callbacks do later.
 */
module VisibilityMachine {
  import opened FrameTypes

  /** The transition a layout pass starts on the content child. */
  datatype Transition = NoTransition | Reveal | Conceal

  /**
   * The content child's visibility, the placeholder's, and whether the reveal
   * animation's start callback and the conceal animation's end callback are
   * still to be delivered.
   */
  datatype VisState = VisState(content: Vis, placeholder: Vis, revealStartPending: bool, concealEndPending: bool)

  /** fadeInAnimation: with animations the placeholder goes GONE at the animation's start, else at once. */
  function FadeIn(animate: bool, s: VisState): VisState
  {
    if animate then s.(revealStartPending := true) else s.(placeholder := Gone)
  }

  /** fadeOutAnimation: with animations the placeholder turns VISIBLE at the scale animation's end, else at once. */
  function FadeOut(animate: bool, s: VisState): VisState
  {
    if animate then s.(concealEndPending := true) else s.(placeholder := Visible)
  }

  /** The visibility branch of a layout pass, when a content child exists. */
  function Settle(show: bool, animate: bool, s: VisState): (r: (VisState, Transition))
    // the content ends VISIBLE when expanded and INVISIBLE when collapsed
    ensures r.0.content == if show then Visible else Invisible
    // transitions are edge-triggered: they fire exactly on a change into or out of VISIBLE
    ensures r.1 == Reveal <==> show && s.content != Visible
    ensures r.1 == Conceal <==> !show && s.content == Visible
    // without a transition the placeholder and the callbacks are left alone
    ensures r.1 == NoTransition ==>
      r.0.placeholder == s.placeholder && r.0.revealStartPending == s.revealStartPending &&
      r.0.concealEndPending == s.concealEndPending
  {
    if show then
      if s.content != Visible then (FadeIn(animate, s).(content := Visible), Reveal)
      else (s.(content := Visible), NoTransition)
    else
      if s.content == Visible then (FadeOut(animate, s).(content := Invisible), Conceal)
      else (s.(content := Invisible), NoTransition)
  }

  /** The reveal animation starts: its start callback hides the placeholder. */
  function RevealStarted(s: VisState): VisState
  {
    if s.revealStartPending then s.(placeholder := Gone, revealStartPending := false) else s
  }

  /** The conceal scale animation ends: its end callback shows the placeholder. */
  function ConcealEnded(s: VisState): VisState
  {
    if s.concealEndPending then s.(placeholder := Visible, concealEndPending := false) else s
  }

  /** A second layout pass in the same state starts nothing and changes nothing. */
  lemma SettleIsQuiet(show: bool, animate: bool, s: VisState)
    ensures var once := Settle(show, animate, s);
            Settle(show, animate, once.0) == (once.0, NoTransition)
  {
  }

  /**
   * A reveal hides the placeholder: at once without animations; with them the
   * placeholder is untouched until the start callback, which hides it.
   */
  lemma RevealHidesPlaceholder(animate: bool, s: VisState)
    requires s.content != Visible
    ensures var r := Settle(true, animate, s);
            r.1 == Reveal && r.0.content == Visible &&
            (!animate ==> r.0.placeholder == Gone) &&
            (animate ==> r.0.placeholder == s.placeholder && r.0.revealStartPending &&
                         RevealStarted(r.0).placeholder == Gone && RevealStarted(r.0).content == Visible)
  {
  }

  /**
   * A conceal shows the placeholder: at once without animations; with them the
   * layout pass leaves it as it was and only the scale animation's end
   * callback makes it VISIBLE, never earlier.
   */
  lemma ConcealShowsPlaceholderAtEnd(animate: bool, s: VisState)
    requires s.content == Visible
    ensures var r := Settle(false, animate, s);
            r.1 == Conceal && r.0.content == Invisible &&
            (!animate ==> r.0.placeholder == Visible) &&
            (animate ==> r.0.placeholder == s.placeholder && r.0.concealEndPending &&
                         ConcealEnded(r.0).placeholder == Visible && ConcealEnded(r.0).content == Invisible)
  {
  }

  /** Steady expanded state: content VISIBLE, placeholder GONE, no callback outstanding. */
  function ExpandedAtRest(): VisState
  {
    VisState(Visible, Gone, false, false)
  }

  /**
   * Collapsing and expanding again, with each animation's callback delivered
   * before the next toggle, brings the steady expanded state back, and runs
   * exactly one conceal and one reveal.
   */
  lemma CollapseExpandRoundTrip(animate: bool)
    ensures var c := Settle(false, animate, ExpandedAtRest());
            var c' := if animate then ConcealEnded(c.0) else c.0;
            var e := Settle(true, animate, c');
            var e' := if animate then RevealStarted(e.0) else e.0;
            c.1 == Conceal && c'.placeholder == Visible && c'.content == Invisible &&
            e.1 == Reveal && e' == ExpandedAtRest()
  {
  }
}
