/**
  The container and its panels together: the container's state fanned out to
  every panel, and a whole transition from request to completion.
 */
module Slider {
  import opened Results
  import opened Animations
  import opened PanelContainer
  import opened Panel

  /** The props panel `i` receives from the container's render callback. */
  function PanelProps(i: int, s: State, at: AnimationType, own: ClassProp): Props
  {
    Props(i, s.activeIndex, s.prevActiveIndex, s.isAnimating, at, own, DefaultGridArea)
  }

  /** The panels among `0 .. panelTotal - 1` that carry the marker token; each panel has its own effects and classes. */
  function ShownPanels(s: State, panelTotal: int, at: int -> AnimationType, own: int -> ClassProp): set<int>
  {
    set i | 0 <= i < panelTotal && Marker in PanelClasses(PanelProps(i, s, at(i), own(i)))
  }

  /**
    In every reachable state exactly one panel is shown at rest (the active one) and
    exactly two during a move (the entering and the exiting one).
   */
  lemma ShownPanelsMatchState(s: State, panelTotal: int, at: int -> AnimationType, own: int -> ClassProp)
    requires Inv(s, panelTotal) && panelTotal >= 1
    requires forall i :: 0 <= i < panelTotal ==> Marker !in AssignPropClassnames(own(i))
    ensures ShownPanels(s, panelTotal, at, own) ==
      if s.isAnimating then {s.activeIndex, s.prevActiveIndex} else {s.activeIndex}
    ensures |ShownPanels(s, panelTotal, at, own)| == if s.isAnimating then 2 else 1
  {
    var expected := if s.isAnimating then {s.activeIndex, s.prevActiveIndex} else {s.activeIndex};
    forall i | 0 <= i < panelTotal
      ensures Marker in PanelClasses(PanelProps(i, s, at(i), own(i))) <==> i in expected
    {
      MarkerIffShown(PanelProps(i, s, at(i), own(i)));
    }
    assert ShownPanels(s, panelTotal, at, own) == expected;
  }

  /**
    One full transition. From a settled state, an accepted request starts a move; the
    entering and the exiting panel each receive the `animationend` of their own
    element, whose class list is what the browser read from the rendered attribute,
    and call the container back. Afterwards the container is settled on the new
    panel, the exiting panel's element has lost the marker and the entering panel's
    element still has it.
   */
  lemma TransitionCompletes(
    s: State, panelTotal: int, a: Action, at: AnimationType, own: ClassProp,
    enteringNode: int, exitingNode: int)
    requires Inv(s, panelTotal) && !s.isAnimating && a != AnimationEnd
    requires Step(s, a, panelTotal) != s
    requires Marker !in AssignPropClassnames(own)
    ensures var moving := Step(s, a, panelTotal);
      var enterView := RenderPanel(PanelProps(moving.activeIndex, moving, at, own));
      var exitView := RenderPanel(PanelProps(moving.prevActiveIndex, moving, at, own));
      var enterEnd := HandlePanelAnimationEnd(Some(enteringNode), Some(enteringNode),
        ElementClassList(enterView), moving.activeIndex, moving.prevActiveIndex, true);
      var exitEnd := HandlePanelAnimationEnd(Some(exitingNode), Some(exitingNode),
        ElementClassList(exitView), moving.prevActiveIndex, moving.prevActiveIndex, true);
      && enterEnd.notifiedParent && exitEnd.notifiedParent
      && Marker in enterEnd.classList
      && Marker !in exitEnd.classList
      && HandleAnimationEnd(HandleAnimationEnd(moving)) == State(moving.activeIndex, s.activeIndex, false)
      && Inv(HandleAnimationEnd(moving), panelTotal)
  {
    var moving := Step(s, a, panelTotal);
    StepPreservesInv(s, a, panelTotal);
    var enterProps := PanelProps(moving.activeIndex, moving, at, own);
    var tokens := PanelClasses(enterProps);
    MarkerIffShown(enterProps);
    assert IsToken(Marker);
    WellFormedTokenReadBack(tokens, |tokens| - 1);
    StepPreservesInv(moving, AnimationEnd, panelTotal);
  }

  /**
    Three panels with the default effects and the class `panel`: after next, panel 0
    slides out to the left, panel 1 slides in from the right and panel 2 has no
    classes; once the move ends, panel 1 keeps only its class and the marker and
    panel 0 only its class.
   */
  lemma ThreePanelsForward()
    ensures var moving := Step(Init, NextPanel, 3);
      && moving == State(1, 0, true)
      && PanelClasses(PanelProps(0, moving, DefaultAnimationType, Single("panel"))) == ["panel", "toLeft", "isActive"]
      && PanelClasses(PanelProps(1, moving, DefaultAnimationType, Single("panel"))) == ["panel", "fromRight", "isActive"]
      && PanelClasses(PanelProps(2, moving, DefaultAnimationType, Single("panel"))) == []
      && RenderPanel(PanelProps(2, moving, DefaultAnimationType, Single("panel"))).className == None
    ensures var settled := Step(Step(Init, NextPanel, 3), AnimationEnd, 3);
      && settled == State(1, 0, false)
      && PanelClasses(PanelProps(0, settled, DefaultAnimationType, Single("panel"))) == ["panel"]
      && PanelClasses(PanelProps(1, settled, DefaultAnimationType, Single("panel"))) == ["panel", "isActive"]
      && RenderPanel(PanelProps(1, settled, DefaultAnimationType, Single("panel"))).className == Some("panel isActive")
  {
    var moving := Step(Init, NextPanel, 3);
    assert moving == State(1, 0, true);
    var p2 := PanelProps(2, moving, DefaultAnimationType, Single("panel"));
    JoinEmptyIff(PanelClasses(p2));
    var settled := Step(moving, AnimationEnd, 3);
    var p1 := PanelProps(1, settled, DefaultAnimationType, Single("panel"));
    assert PanelClasses(p1) == ["panel", "isActive"];
    assert ["panel", "isActive"][1..] == ["isActive"];
    assert Join(["panel", "isActive"]) == "panel" + " " + "isActive" == "panel isActive";
  }

  /** Going back from panel 1 uses the backward effect for both panels: panel 0 enters from the left, panel 1 leaves to the right. */
  lemma ThreePanelsBackward()
    ensures var moving := Step(State(1, 0, false), PrevPanel, 3);
      && moving == State(0, 1, true)
      && PanelClasses(PanelProps(0, moving, DefaultAnimationType, Absent)) == ["fromLeft", "isActive"]
      && PanelClasses(PanelProps(1, moving, DefaultAnimationType, Absent)) == ["toRight", "isActive"]
  {
    var moving := Step(State(1, 0, false), PrevPanel, 3);
    assert moving == State(0, 1, true);
  }

  /** The attribute `panel big isActive` is read as three classes. */
  lemma ThreeClassesReadBack()
    ensures ClassTokens("panel big isActive", "") == ["panel", "big", "isActive"]
  {
    var names := ["panel", "big", "isActive"];
    assert names[1..] == ["big", "isActive"];
    assert names[1..][1..] == ["isActive"];
    assert Join(names) == "panel" + " " + ("big" + " " + "isActive") == "panel big isActive";
    assert IsToken(names[0]) && IsToken(names[1]) && IsToken(names[2]);
    JoinRoundTrip(names);
  }

  /**
    A single string prop holding a space is kept as one entry of the token list, and
    the browser reads it back as two classes.
   */
  lemma SpacedClassNameSplitsOnElement()
    ensures var p := PanelProps(0, Init, DefaultAnimationType, Single("panel big"));
      && PanelClasses(p) == ["panel big", "isActive"]
      && RenderPanel(p).className == Some("panel big isActive")
      && ElementClassList(RenderPanel(p)) == ["panel", "big", "isActive"]
  {
    var p := PanelProps(0, Init, DefaultAnimationType, Single("panel big"));
    var tokens := ["panel big", "isActive"];
    assert PanelClasses(p) == tokens;
    assert tokens[1..] == ["isActive"];
    assert Join(tokens) == "panel big" + " " + "isActive" == "panel big isActive";
    ThreeClassesReadBack();
  }

  /** The class name `panel\tbig` is read as two classes. */
  lemma TabbedClassesReadBack()
    ensures ClassTokens("panel\tbig", "") == ["panel", "big"]
  {
    var first, second := "panel", "big";
    assert IsToken(first) && IsToken(second);
    SingleTokenReadsBack(first);
    SingleTokenReadsBack(second);
    ClassTokensAtSeparator(first, '\t', second, "");
    assert first + ['\t'] + second == "panel\tbig";
  }

  /** A tab inside a string prop separates classes on the element just as a space does. */
  lemma TabbedClassNameSplitsOnElement()
    ensures var p := PanelProps(0, Init, DefaultAnimationType, Single("panel\tbig"));
      && PanelClasses(p) == ["panel\tbig", "isActive"]
      && RenderPanel(p).className == Some("panel\tbig isActive")
      && ElementClassList(RenderPanel(p)) == ["panel", "big", "isActive"]
  {
    var p := PanelProps(0, Init, DefaultAnimationType, Single("panel\tbig"));
    var tokens := ["panel\tbig", "isActive"];
    assert PanelClasses(p) == tokens;
    assert tokens[1..] == ["isActive"];
    assert Join(tokens) == "panel\tbig" + " " + "isActive" == "panel\tbig isActive";
    TabbedClassesReadBack();
    SingleTokenReadsBack(Marker);
    assert TokensOf(tokens) == ClassTokens(tokens[0], "") + (ClassTokens(tokens[1], "") + TokensOf([]));
  }
}
