/**
  The sequence controller of src/components/PanelContainer.tsx: the navigation
  state `(activeIndex, prevActiveIndex, isAnimating)` with its reducer, the
  re-render predicate, the grid-template string builder and the choice between
  the `render` prop and a function child.
 */
module PanelContainer {
  import opened Results

  /** The component state; `panelTotal` is a prop and is passed alongside. */
  datatype State = State(activeIndex: int, prevActiveIndex: int, isAnimating: bool)

  /** The three callbacks the container hands to its children. */
  datatype Action = PrevPanel | NextPanel | AnimationEnd

  /** `initialState`: the first panel is active and nothing is moving. */
  const Init: State := State(0, 0, false)

  function Max(a: int, b: int): int
  {
    if a < b then b else a
  }

  /** True when a navigation request is dropped before its updater runs. */
  predicate NavigationBlocked(s: State, panelTotal: int)
  {
    s.isAnimating || panelTotal < 2
  }

  /** `onPrevPanel`: step one panel back, unless busy, too few panels, or at the first panel. */
  function OnPrevPanel(s: State, panelTotal: int): (r: State)
    ensures r == s || (r.isAnimating && r.prevActiveIndex == s.activeIndex && r.activeIndex == s.activeIndex - 1)
    ensures r != s <==> !NavigationBlocked(s, panelTotal) && s.activeIndex != 0
  {
    if NavigationBlocked(s, panelTotal) then s
    else if s.activeIndex == 0 then s
    else s.(isAnimating := true, prevActiveIndex := s.activeIndex, activeIndex := s.activeIndex - 1)
  }

  /** `onNextPanel`: step one panel forward, unless busy, too few panels, or at the last panel. */
  function OnNextPanel(s: State, panelTotal: int): (r: State)
    ensures r == s || (r.isAnimating && r.prevActiveIndex == s.activeIndex && r.activeIndex == s.activeIndex + 1)
    ensures r != s <==> !NavigationBlocked(s, panelTotal) && s.activeIndex != panelTotal - 1
  {
    if NavigationBlocked(s, panelTotal) then s
    else if s.activeIndex == panelTotal - 1 then s
    else s.(isAnimating := true, prevActiveIndex := s.activeIndex, activeIndex := s.activeIndex + 1)
  }

  /** `handleAnimationEnd`: the transition is over; both indices stay as they are. */
  function HandleAnimationEnd(s: State): (r: State)
    ensures !r.isAnimating
    ensures r.activeIndex == s.activeIndex && r.prevActiveIndex == s.prevActiveIndex
  {
    s.(isAnimating := false)
  }

  /** The reducer: one callback invocation with `panelTotal` as the current prop. */
  function Step(s: State, a: Action, panelTotal: int): State
  {
    match a
    case PrevPanel => OnPrevPanel(s, panelTotal)
    case NextPanel => OnNextPanel(s, panelTotal)
    case AnimationEnd => HandleAnimationEnd(s)
  }

  /** A sequence of callback invocations, applied in order with `panelTotal` held fixed. */
  function Run(s: State, actions: seq<Action>, panelTotal: int): State
    decreases |actions|
  {
    if actions == [] then s else Run(Step(s, actions[0], panelTotal), actions[1..], panelTotal)
  }

  /**
    What every reachable state satisfies for a fixed `panelTotal`: both indices lie in
    `[0, max(0, panelTotal - 1)]`, they differ by at most one, and by exactly one while
    a transition is in flight.
   */
  predicate Inv(s: State, panelTotal: int)
  {
    && 0 <= s.activeIndex <= Max(0, panelTotal - 1)
    && 0 <= s.prevActiveIndex <= Max(0, panelTotal - 1)
    && -1 <= s.activeIndex - s.prevActiveIndex <= 1
    && (s.isAnimating ==> s.activeIndex != s.prevActiveIndex)
  }

  /** The initial state: panel 0 active, previous panel 0, not animating; it satisfies the invariant for every total. */
  lemma InitialState(panelTotal: int)
    ensures Init.activeIndex == 0 && Init.prevActiveIndex == 0 && !Init.isAnimating
    ensures Inv(Init, panelTotal)
  {
  }

  /** An accepted navigation records the old index, moves by one and starts animating; nothing else changes. */
  lemma AcceptedNavigation(s: State, panelTotal: int)
    requires !s.isAnimating && panelTotal >= 2
    ensures s.activeIndex != 0 ==>
      OnPrevPanel(s, panelTotal) == State(s.activeIndex - 1, s.activeIndex, true)
    ensures s.activeIndex != panelTotal - 1 ==>
      OnNextPanel(s, panelTotal) == State(s.activeIndex + 1, s.activeIndex, true)
  {
  }

  /** Completion only clears the flag, and a second completion (the other animated panel's) changes nothing more. */
  lemma AnimationEndIdempotent(s: State)
    ensures HandleAnimationEnd(s) == State(s.activeIndex, s.prevActiveIndex, false)
    ensures HandleAnimationEnd(HandleAnimationEnd(s)) == HandleAnimationEnd(s)
  {
  }

  /** Every callback preserves the invariant when `panelTotal` does not change. */
  lemma StepPreservesInv(s: State, a: Action, panelTotal: int)
    requires Inv(s, panelTotal)
    ensures Inv(Step(s, a, panelTotal), panelTotal)
    ensures a != AnimationEnd && Step(s, a, panelTotal) != s ==>
      var r := Step(s, a, panelTotal);
      r.activeIndex - r.prevActiveIndex == 1 || r.prevActiveIndex - r.activeIndex == 1
  {
  }

  /** Every sequence of callbacks preserves the invariant when `panelTotal` does not change. */
  lemma {:induction false} RunPreservesInv(s: State, actions: seq<Action>, panelTotal: int)
    requires Inv(s, panelTotal)
    ensures Inv(Run(s, actions, panelTotal), panelTotal)
    decreases |actions|
  {
    if actions != [] {
      StepPreservesInv(s, actions[0], panelTotal);
      RunPreservesInv(Step(s, actions[0], panelTotal), actions[1..], panelTotal);
    }
  }

  /** Every state reachable from the initial state satisfies the invariant. */
  lemma ReachableStatesSatisfyInv(actions: seq<Action>, panelTotal: int)
    ensures Inv(Run(Init, actions, panelTotal), panelTotal)
  {
    RunPreservesInv(Init, actions, panelTotal);
  }

  /**
    Next's boundary test is an equality, so the bound is not re-established when
    `panelTotal` shrinks below the active panel: a valid state for three panels steps
    past the last panel once the total drops to two.
   */
  lemma ShrinkingTotalEscapesBound()
    ensures Inv(State(2, 1, false), 3)
    ensures OnNextPanel(State(2, 1, false), 2) == State(3, 2, true)
    ensures !Inv(OnNextPanel(State(2, 1, false), 2), 2)
  {
  }

  /** Repeated next requests, each followed by the completion of its move. */
  function NextAndSettle(k: nat): seq<Action>
  {
    if k == 0 then [] else [NextPanel, AnimationEnd] + NextAndSettle(k - 1)
  }

  /**
    Once the active index is past the last panel, next is never blocked again: each
    next-and-complete round moves one panel further, without bound.
   */
  lemma {:induction false} IndexGrowsPastLast(s: State, panelTotal: int, k: nat)
    requires !s.isAnimating && panelTotal >= 2 && s.activeIndex > panelTotal - 1
    ensures Run(s, NextAndSettle(k), panelTotal).activeIndex == s.activeIndex + k
    ensures !Run(s, NextAndSettle(k), panelTotal).isAnimating
    decreases k
  {
    if k > 0 {
      var actions := NextAndSettle(k);
      var rest := NextAndSettle(k - 1);
      assert actions[0] == NextPanel && actions[1..] == [AnimationEnd] + rest;
      assert ([AnimationEnd] + rest)[0] == AnimationEnd && ([AnimationEnd] + rest)[1..] == rest;
      var settled := HandleAnimationEnd(OnNextPanel(s, panelTotal));
      assert settled == State(s.activeIndex + 1, s.activeIndex, false);
      assert Run(s, actions, panelTotal) == Run(settled, rest, panelTotal);
      IndexGrowsPastLast(settled, panelTotal, k - 1);
    }
  }

  /** While a transition is in flight, any sequence of prev/next requests is dropped entirely. */
  lemma {:induction false} NavigationDroppedWhileAnimating(s: State, actions: seq<Action>, panelTotal: int)
    requires s.isAnimating
    requires forall i :: 0 <= i < |actions| ==> actions[i] != AnimationEnd
    ensures Run(s, actions, panelTotal) == s
    decreases |actions|
  {
    if actions != [] {
      NavigationDroppedWhileAnimating(s, actions[1..], panelTotal);
    }
  }

  /** With fewer than two panels every callback sequence leaves the initial state as it is. */
  lemma {:induction false} FewPanelsNeverMove(actions: seq<Action>, panelTotal: int)
    requires panelTotal < 2
    ensures Run(Init, actions, panelTotal) == Init
    decreases |actions|
  {
    if actions != [] {
      assert Step(Init, actions[0], panelTotal) == Init;
      FewPanelsNeverMove(actions[1..], panelTotal);
    }
  }

  /**
    Prev and next undo each other: going back one panel, letting the animation end,
    then going forward again restores the active panel and leaves the intermediate
    panel recorded as the previous one (and symmetrically for next then prev).
   */
  lemma PrevThenNextRestores(s: State, panelTotal: int)
    requires Inv(s, panelTotal) && !s.isAnimating && panelTotal >= 2
    ensures s.activeIndex > 0 ==>
      var back := HandleAnimationEnd(OnPrevPanel(s, panelTotal));
      var r := OnNextPanel(back, panelTotal);
      r.activeIndex == s.activeIndex && r.prevActiveIndex == s.activeIndex - 1 && r.isAnimating
    ensures s.activeIndex < panelTotal - 1 ==>
      var fwd := HandleAnimationEnd(OnNextPanel(s, panelTotal));
      var r := OnPrevPanel(fwd, panelTotal);
      r.activeIndex == s.activeIndex && r.prevActiveIndex == s.activeIndex + 1 && r.isAnimating
  {
  }

  /**
    `shouldComponentUpdate`: re-render exactly when the active index, the animating
    flag or the panel total changes.
   */
  function ShouldComponentUpdate(s: State, panelTotal: int, next: State, nextTotal: int): (r: bool)
    ensures r <== next.activeIndex != s.activeIndex
    ensures r <== next.isAnimating != s.isAnimating
    ensures r <== nextTotal != panelTotal
    ensures r <==> next.(prevActiveIndex := s.prevActiveIndex) != s || nextTotal != panelTotal
  {
    next.activeIndex != s.activeIndex
    || next.isAnimating != s.isAnimating
    || nextTotal != panelTotal
  }

  /** A change of the previous index alone is not rendered. */
  lemma PrevIndexAloneDoesNotRerender(s: State, panelTotal: int, p: int)
    ensures !ShouldComponentUpdate(s, panelTotal, s.(prevActiveIndex := p), panelTotal)
  {
  }

  /**
    Under the reducer the re-render predicate is exact: a callback re-renders iff it
    changed the state, so every accepted navigation and the first completion re-render,
    while dropped requests and the second completion do not.
   */
  lemma RerenderIffStateChanged(s: State, a: Action, panelTotal: int)
    ensures ShouldComponentUpdate(s, panelTotal, Step(s, a, panelTotal), panelTotal)
      <==> Step(s, a, panelTotal) != s
  {
  }

  /** The layout prop: column and row sizes and the ordered named grid areas. */
  datatype GridProperties = GridProperties(columnSizes: string, rowSizes: string, templateArea: seq<string>)

  /** The grid part of the container's style; `gridTemplateAreas` may be absent. */
  datatype GridStyle = GridStyle(gridTemplateColumns: string, gridTemplateRows: string, gridTemplateAreas: Option<string>)

  /** The default `gridProperties` prop. */
  const DefaultGridProperties: GridProperties := GridProperties("1fr", "auto", [""])

  /** The default layout still emits a template: its single empty area name is quoted. */
  lemma DefaultTemplateAreas()
    ensures DefaultGridProperties.templateArea != []
    ensures TemplateAreas(DefaultGridProperties.templateArea) == "'' "
  {
  }

  /** One area name as it appears in `grid-template-areas`: quoted and followed by a space. */
  function QuoteArea(v: string): string
  {
    "'" + v + "' "
  }

  /** The reference value of the template string: the quoted areas, in order. */
  function TemplateAreas(areas: seq<string>): string
    decreases |areas|
  {
    if areas == [] then "" else QuoteArea(areas[0]) + TemplateAreas(areas[1..])
  }

  lemma {:induction false} TemplateAreasAppend(areas: seq<string>, v: string)
    ensures TemplateAreas(areas + [v]) == TemplateAreas(areas) + QuoteArea(v)
    decreases |areas|
  {
    if areas == [] {
      assert [v][1..] == [];
    } else {
      assert (areas + [v])[1..] == areas[1..] + [v];
      TemplateAreasAppend(areas[1..], v);
    }
  }

  /** The `forEach` loop of `assignGridValues`, appending one quoted area per element. */
  method BuildTemplateString(areas: seq<string>) returns (templateString: string)
    ensures templateString == TemplateAreas(areas)
  {
    templateString := "";
    var i := 0;
    while i < |areas|
      invariant 0 <= i <= |areas|
      invariant templateString == TemplateAreas(areas[..i])
    {
      TemplateAreasAppend(areas[..i], areas[i]);
      assert areas[..i + 1] == areas[..i] + [areas[i]];
      templateString := templateString + QuoteArea(areas[i]);
      i := i + 1;
    }
    assert areas[..|areas|] == areas;
  }

  /** The first `'` in `s` at or after position `from`. */
  function NextQuote(s: string, from: nat): (r: Option<nat>)
    requires from <= |s|
    decreases |s| - from
    ensures r.Some? ==> from <= r.value < |s| && s[r.value] == '\''
    ensures r.Some? ==> forall k :: from <= k < r.value ==> s[k] != '\''
    ensures r.None? ==> forall k :: from <= k < |s| ==> s[k] != '\''
  {
    if from == |s| then None
    else if s[from] == '\'' then Some(from)
    else NextQuote(s, from + 1)
  }

  /** Reads a `grid-template-areas` string of quoted, space-terminated names back into the names. */
  function ParseTemplateAreas(s: string): Option<seq<string>>
    decreases |s|
  {
    if s == [] then Some([])
    else if s[0] != '\'' then None
    else match NextQuote(s, 1)
      case None => None
      case Some(j) =>
        if j + 1 < |s| && s[j + 1] == ' ' then
          match ParseTemplateAreas(s[j + 2..])
          case None => None
          case Some(rest) => Some([s[1..j]] + rest)
        else None
  }

  predicate NoQuote(v: string)
  {
    forall k :: 0 <= k < |v| ==> v[k] != '\''
  }

  /** The template string names every area, in order: reading it back gives the areas again. */
  lemma {:induction false} TemplateAreasRoundTrip(areas: seq<string>)
    requires forall i :: 0 <= i < |areas| ==> NoQuote(areas[i])
    ensures ParseTemplateAreas(TemplateAreas(areas)) == Some(areas)
    decreases |areas|
  {
    if areas != [] {
      var v := areas[0];
      var tail := TemplateAreas(areas[1..]);
      var s := TemplateAreas(areas);
      assert s == "'" + v + "' " + tail;
      assert s[1..|v| + 1] == v;
      assert s[|v| + 3..] == tail;
      var q := NextQuote(s, 1);
      assert s[|v| + 1] == '\'';
      assert q == Some(|v| + 1) by {
        forall k | 1 <= k < |v| + 1
          ensures s[k] != '\''
        {
          assert s[k] == v[k - 1];
        }
      }
      TemplateAreasRoundTrip(areas[1..]);
      assert [v] + areas[1..] == areas;
    }
  }

  /**
    `assignGridValues`: column and row sizes pass through; `gridTemplateAreas` is present
    exactly when there is at least one area, and then names every area in order.
   */
  method AssignGridValues(g: GridProperties) returns (style: GridStyle)
    ensures style.gridTemplateColumns == g.columnSizes && style.gridTemplateRows == g.rowSizes
    ensures style.gridTemplateAreas.None? <==> g.templateArea == []
    ensures style.gridTemplateAreas.Some? ==> style.gridTemplateAreas.value == TemplateAreas(g.templateArea)
    ensures style.gridTemplateAreas.Some? && (forall i :: 0 <= i < |g.templateArea| ==> NoQuote(g.templateArea[i])) ==>
      ParseTemplateAreas(style.gridTemplateAreas.value) == Some(g.templateArea)
  {
    style := GridStyle(g.columnSizes, g.rowSizes, None);
    if |g.templateArea| > 0 {
      var templateString := BuildTemplateString(g.templateArea);
      if forall i :: 0 <= i < |g.templateArea| ==> NoQuote(g.templateArea[i]) {
        TemplateAreasRoundTrip(g.templateArea);
      }
      style := style.(gridTemplateAreas := Some(templateString));
    }
  }

  /** What the container renders its children with. */
  datatype Renderer = RenderProp | FunctionChildren

  /** The kind of value passed as `children`. */
  datatype ChildrenProp = NoChildren | FunctionChild | OtherChild

  const RenderErrorMessage: string :=
    "You must provide either children or the render prop. Both need to be of type Function."

  /** The render choice: the `render` prop wins, else a function child, else the container throws. */
  function SelectRenderer(hasRenderProp: bool, children: ChildrenProp): (r: Result<Renderer>)
    ensures r == Success(RenderProp) <==> hasRenderProp
    ensures r == Success(FunctionChildren) <==> !hasRenderProp && children == FunctionChild
    ensures r.Failure? <==> !hasRenderProp && children != FunctionChild
    ensures r.Failure? ==> r.message == RenderErrorMessage
  {
    if hasRenderProp then Success(RenderProp)
    else if children == FunctionChild then Success(FunctionChildren)
    else Failure(RenderErrorMessage)
  }
}
