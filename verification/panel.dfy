/**
  The slot presenter of src/components/Panel.tsx: how one panel turns the
  container's published state and its own props into an ordered list of class
  tokens, a `className` attribute and a `zIndex`, and how it reacts to an
  `animationend` event.
 */
module Panel {
  import opened Results
  import opened Animations

  /** The `panelClassname` prop: absent, one class name, or an array of class names. */
  datatype ClassProp = Absent | Single(name: string) | Many(names: seq<string>)

  /** The `animationType` prop: which effect a forward and a backward move use. */
  datatype AnimationType = AnimationType(nextAnimation: AnimationKey, prevAnimation: AnimationKey)

  /** The props a panel reads; `handleAnimationEnd` is modelled separately. */
  datatype Props = Props(
    panelIndex: int,
    activeIndex: int,
    prevActiveIndex: int,
    isAnimating: bool,
    animationType: AnimationType,
    panelClassname: ClassProp,
    gridAreaValue: string)

  /** The `animationType` default: slide in from the right going forward, from the left going back. */
  const DefaultAnimationType: AnimationType := AnimationType(FromRight, FromLeft)

  /** The `gridAreaValue` default. */
  const DefaultGridArea: string := "panel"

  /** The token a panel carries while it is shown. */
  const Marker: string := "isActive"

  /** `assignPropClassnames`: the prop as a list; an absent prop or the empty string gives no classes. */
  function AssignPropClassnames(c: ClassProp): (r: seq<string>)
    ensures c.Many? ==> r == c.names
    ensures c.Single? ==> r == (if c.name == "" then [] else [c.name])
    ensures c.Absent? ==> r == []
  {
    match c
    case Absent => []
    case Single(name) => if name == "" then [] else [name]
    case Many(names) => names
  }

  /** Normalising is idempotent: a normalised list passed back as an array is kept as it is. */
  lemma PropClassnamesIdempotent(c: ClassProp)
    ensures AssignPropClassnames(Many(AssignPropClassnames(c))) == AssignPropClassnames(c)
    ensures !c.Many? ==> |AssignPropClassnames(c)| <= 1 && "" !in AssignPropClassnames(c)
  {
  }

  predicate IsEntering(p: Props)
  {
    p.panelIndex == p.activeIndex
  }

  predicate IsExiting(p: Props)
  {
    p.panelIndex == p.prevActiveIndex
  }

  /** The effect of the current move, the same for every panel: forward iff the active index went up. */
  function DirectionKey(p: Props): AnimationKey
  {
    if p.activeIndex > p.prevActiveIndex then p.animationType.nextAnimation else p.animationType.prevAnimation
  }

  /**
    `getAnimationType`: the class lists of the forward effect when the move goes
    forward, of the backward effect otherwise, as the registry table gives them.
   */
  function GetAnimationType(isAnimatingForward: bool, at: AnimationType): (r: AnimationOptions)
    ensures isAnimatingForward ==> r == Effect(at.nextAnimation)
    ensures !isAnimatingForward ==> r == Effect(at.prevAnimation)
  {
    Lookup(if isAnimatingForward then at.nextAnimation else at.prevAnimation)
  }

  /**
    `getDirectionalClassname`: the current move's entering list for the entering
    panel and its exiting list for any other panel.
   */
  function GetDirectionalClassname(isEnteringPanel: bool, p: Props): (r: seq<string>)
    ensures isEnteringPanel ==> r == Effect(DirectionKey(p)).enteringClass
    ensures !isEnteringPanel ==> r == Effect(DirectionKey(p)).exitingClass
  {
    var isAnimatingForward := p.activeIndex > p.prevActiveIndex;
    var o := GetAnimationType(isAnimatingForward, p.animationType);
    if isEnteringPanel then o.enteringClass else o.exitingClass
  }

  /**
    `assignAnimationClassnames`, with the early return and the empty default of the
    source, stated by role: at rest the active panel appends the marker and any other
    panel keeps `classes`; in motion the entering panel appends the move's entering
    list and the marker, the exiting panel the move's exiting list and the marker, and
    every other panel gets nothing.
   */
  function AssignAnimationClassnames(classes: seq<string>, p: Props): (r: seq<string>)
    ensures !p.isAnimating ==> r == classes + (if IsEntering(p) then [Marker] else [])
    ensures p.isAnimating && IsEntering(p) ==>
      r == classes + Effect(DirectionKey(p)).enteringClass + [Marker]
    ensures p.isAnimating && IsExiting(p) && !IsEntering(p) ==>
      r == classes + Effect(DirectionKey(p)).exitingClass + [Marker]
    ensures p.isAnimating && !IsEntering(p) && !IsExiting(p) ==> r == []
  {
    var isExitingPanel := p.panelIndex == p.prevActiveIndex;
    var isEnteringPanel := p.panelIndex == p.activeIndex;
    var directionalClass := GetDirectionalClassname(isEnteringPanel, p);
    if p.isAnimating then
      if isExitingPanel then classes + directionalClass + [Marker]
      else if isEnteringPanel then classes + directionalClass + [Marker]
      else []
    else if isEnteringPanel then classes + [Marker]
    else classes
  }

  /**
    The class tokens of one panel (`assignAnimationClassnames ∘ assignPropClassnames`),
    by role: at rest the active panel adds the marker; in motion the entering and the
    exiting panel add the current effect's entering or exiting list and then the
    marker, and every other panel loses even its own classes.
   */
  function PanelClasses(p: Props): (r: seq<string>)
    ensures var own := AssignPropClassnames(p.panelClassname);
      !p.isAnimating ==> r == own + (if IsEntering(p) then [Marker] else [])
    ensures var own := AssignPropClassnames(p.panelClassname);
      var o := Effect(DirectionKey(p));
      p.isAnimating && IsEntering(p) ==> r == own + o.enteringClass + [Marker]
    ensures var own := AssignPropClassnames(p.panelClassname);
      var o := Effect(DirectionKey(p));
      p.isAnimating && IsExiting(p) && !IsEntering(p) ==> r == own + o.exitingClass + [Marker]
    ensures p.isAnimating && !IsEntering(p) && !IsExiting(p) ==> r == []
  {
    AssignAnimationClassnames(AssignPropClassnames(p.panelClassname), p)
  }

  /**
    The marker is carried exactly by the active panel, and in motion also by the
    exiting panel; when carried it is the last token.
   */
  lemma MarkerIffShown(p: Props)
    requires Marker !in AssignPropClassnames(p.panelClassname)
    ensures Marker in PanelClasses(p) <==> IsEntering(p) || (p.isAnimating && IsExiting(p))
    ensures Marker in PanelClasses(p) ==> PanelClasses(p)[|PanelClasses(p)| - 1] == Marker
  {
    NoEffectEmitsMarker(DirectionKey(p));
  }

  /** The panel's own classes lead its token list, except for an uninvolved panel during a move. */
  lemma OwnClassesFirst(p: Props)
    ensures !(p.isAnimating && !IsEntering(p) && !IsExiting(p)) ==>
      var own := AssignPropClassnames(p.panelClassname);
      |own| <= |PanelClasses(p)| && PanelClasses(p)[..|own|] == own
  {
  }

  /**
    The direction is global: in one state, the entering panel and the exiting panel
    take their lists from the same effect, forward iff the active index went up.
   */
  lemma DirectionIsGlobal(enter: Props, exit: Props)
    requires enter.isAnimating && IsEntering(enter) && enter.activeIndex != enter.prevActiveIndex
    requires exit.panelIndex == enter.prevActiveIndex
    requires exit.activeIndex == enter.activeIndex && exit.prevActiveIndex == enter.prevActiveIndex
    requires exit.isAnimating && exit.animationType == enter.animationType
    ensures var o := Effect(DirectionKey(enter));
      && PanelClasses(enter) == AssignPropClassnames(enter.panelClassname) + o.enteringClass + [Marker]
      && PanelClasses(exit) == AssignPropClassnames(exit.panelClassname) + o.exitingClass + [Marker]
    ensures DirectionKey(exit) == DirectionKey(enter)
  {
  }

  /** A panel that is both entering and exiting (no move happened) gets the backward effect's entering list. */
  lemma BothRolesTakeEnteringList(p: Props)
    requires p.isAnimating && IsEntering(p) && IsExiting(p)
    ensures PanelClasses(p) ==
      AssignPropClassnames(p.panelClassname) + Effect(p.animationType.prevAnimation).enteringClass + [Marker]
  {
  }

  /** `[].join(' ')`: the tokens separated by single spaces. */
  function Join(tokens: seq<string>): string
    decreases |tokens|
  {
    if tokens == [] then ""
    else if |tokens| == 1 then tokens[0]
    else tokens[0] + " " + Join(tokens[1..])
  }

  /** ASCII whitespace as the DOM splits on it: tab, line feed, form feed, carriage return and space. */
  predicate IsAsciiWhitespace(c: char)
  {
    c == '\t' || c == '\n' || c == '\U{000C}' || c == '\r' || c == ' '
  }

  /**
    Splits on ASCII whitespace and drops empty pieces, the way a class attribute is read into
    tokens; `current` is the piece read so far.
   */
  function ClassTokens(s: string, current: string): seq<string>
    decreases |s|
  {
    if s == [] then (if current == "" then [] else [current])
    else if IsAsciiWhitespace(s[0]) then (if current == "" then [] else [current]) + ClassTokens(s[1..], "")
    else ClassTokens(s[1..], current + [s[0]])
  }

  /** A usable class name: non-empty and free of whitespace. */
  predicate IsToken(t: string)
  {
    t != "" && forall k :: 0 <= k < |t| ==> !IsAsciiWhitespace(t[k])
  }

  lemma {:induction false} ClassTokensWord(w: string, rest: string, current: string)
    requires forall k :: 0 <= k < |w| ==> !IsAsciiWhitespace(w[k])
    ensures ClassTokens(w + rest, current) == ClassTokens(rest, current + w)
    decreases |w|
  {
    if w != [] {
      assert (w + rest)[0] == w[0];
      assert (w + rest)[1..] == w[1..] + rest;
      assert current + w == (current + [w[0]]) + w[1..];
      ClassTokensWord(w[1..], rest, current + [w[0]]);
    } else {
      assert w + rest == rest;
      assert current + w == current;
    }
  }

  /** The tokens a browser reads from each listed class name, concatenated in order. */
  function TokensOf(tokens: seq<string>): seq<string>
    decreases |tokens|
  {
    if tokens == [] then [] else ClassTokens(tokens[0], "") + TokensOf(tokens[1..])
  }

  /** A whitespace character ends the current token: what precedes it and what follows it are read separately. */
  lemma {:induction false} ClassTokensAtSeparator(a: string, c: char, b: string, current: string)
    requires IsAsciiWhitespace(c)
    ensures ClassTokens(a + [c] + b, current) == ClassTokens(a, current) + ClassTokens(b, "")
    decreases |a|
  {
    if a == [] {
      assert a + [c] + b == [c] + b;
      assert ([c] + b)[1..] == b;
    } else {
      assert (a + [c] + b)[0] == a[0];
      assert (a + [c] + b)[1..] == a[1..] + [c] + b;
      if IsAsciiWhitespace(a[0]) {
        ClassTokensAtSeparator(a[1..], c, b, "");
      } else {
        ClassTokensAtSeparator(a[1..], c, b, current + [a[0]]);
      }
    }
  }

  /** The joined attribute reads back as the tokens of each class name in turn, whatever the names hold. */
  lemma {:induction false} JoinReadBack(tokens: seq<string>)
    ensures ClassTokens(Join(tokens), "") == TokensOf(tokens)
    decreases |tokens|
  {
    if |tokens| == 1 {
      assert tokens[1..] == [];
    } else if |tokens| > 1 {
      assert tokens[0] + " " + Join(tokens[1..]) == tokens[0] + [' '] + Join(tokens[1..]);
      ClassTokensAtSeparator(tokens[0], ' ', Join(tokens[1..]), "");
      JoinReadBack(tokens[1..]);
    }
  }

  /** A well-formed class name is read back as itself. */
  lemma SingleTokenReadsBack(t: string)
    requires IsToken(t)
    ensures ClassTokens(t, "") == [t]
  {
    ClassTokensWord(t, "", "");
    assert t + "" == t;
    assert "" + t == t;
  }

  /** Joining well-formed class names and reading the attribute back gives the same names. */
  lemma {:induction false} JoinRoundTrip(tokens: seq<string>)
    requires forall i :: 0 <= i < |tokens| ==> IsToken(tokens[i])
    ensures TokensOf(tokens) == tokens
    ensures ClassTokens(Join(tokens), "") == tokens
    decreases |tokens|
  {
    JoinReadBack(tokens);
    if tokens != [] {
      SingleTokenReadsBack(tokens[0]);
      JoinRoundTrip(tokens[1..]);
      assert [tokens[0]] + tokens[1..] == tokens;
    }
  }

  /** A well-formed class name in the list is among the classes the browser reads. */
  lemma {:induction false} WellFormedTokenReadBack(tokens: seq<string>, i: nat)
    requires i < |tokens| && IsToken(tokens[i])
    ensures tokens[i] in TokensOf(tokens)
    decreases i
  {
    if i == 0 {
      SingleTokenReadsBack(tokens[0]);
    } else {
      WellFormedTokenReadBack(tokens[1..], i - 1);
    }
  }

  /** The joined string is empty exactly for no tokens or a single empty token. */
  lemma JoinEmptyIff(tokens: seq<string>)
    ensures Join(tokens) == "" <==> tokens == [] || tokens == [""]
  {
    if |tokens| > 1 {
      assert |Join(tokens)| >= 1;
    }
  }

  /** What `render` puts on the panel's element. */
  datatype PanelView = PanelView(className: Option<string>, zIndex: int, gridArea: string)

  /** The element's class list as the browser reads it from the rendered attribute. */
  function ElementClassList(v: PanelView): seq<string>
  {
    match v.className
    case None => []
    case Some(s) => ClassTokens(s, "")
  }

  /**
    `render`: the active panel is stacked above the others; the class attribute is the
    joined token list and is left off when that string is empty. The element's class
    list is what the browser reads from each token, so a name holding whitespace (one
    string prop such as `panel big`) becomes several classes.
   */
  function RenderPanel(p: Props): (v: PanelView)
    ensures v.zIndex == (if IsEntering(p) then 1 else 0)
    ensures v.gridArea == p.gridAreaValue
    ensures v.className.None? <==> PanelClasses(p) == [] || PanelClasses(p) == [""]
    ensures ElementClassList(v) == TokensOf(PanelClasses(p))
    ensures (forall i :: 0 <= i < |PanelClasses(p)| ==> IsToken(PanelClasses(p)[i])) ==>
      ElementClassList(v) == PanelClasses(p)
  {
    var tokens := PanelClasses(p);
    var panelClassNames := Join(tokens);
    JoinEmptyIff(tokens);
    JoinReadBack(tokens);
    assert tokens == [""] ==> TokensOf(tokens) == [];
    var view := PanelView(
      if |panelClassNames| > 0 then Some(panelClassNames) else None,
      if IsEntering(p) then 1 else 0,
      p.gridAreaValue);
    if forall i :: 0 <= i < |tokens| ==> IsToken(tokens[i]) then
      JoinRoundTrip(tokens);
      view
    else
      view
  }

  /** A shown panel always has a class attribute; an uninvolved panel during a move never has one. */
  lemma ClassAttributePresence(p: Props)
    ensures IsEntering(p) || (p.isAnimating && IsExiting(p)) ==> RenderPanel(p).className.Some?
    ensures p.isAnimating && !IsEntering(p) && !IsExiting(p) ==> RenderPanel(p).className.None?
  {
    var r := PanelClasses(p);
    if IsEntering(p) || (p.isAnimating && IsExiting(p)) {
      assert r[|r| - 1] == Marker;
      assert r != [] && r != [""];
    }
  }

  /** `a` is `b` with some elements left out, the others in their original order. */
  predicate Subsequence(a: seq<string>, b: seq<string>)
    decreases |b|
  {
    a == [] || (b != [] && if a[0] == b[0] then Subsequence(a[1..], b[1..]) else Subsequence(a, b[1..]))
  }

  /** `classList.remove(token)`: every occurrence of the token goes, the rest keeps its order. */
  function RemoveToken(classes: seq<string>, token: string): (r: seq<string>)
    decreases |classes|
    ensures token !in r
    ensures forall t :: t != token ==> (t in r <==> t in classes)
    ensures multiset(r) == multiset(classes)[token := 0]
    ensures Subsequence(r, classes)
  {
    if classes == [] then []
    else
      assert classes == [classes[0]] + classes[1..];
      if classes[0] == token then
        var rest := RemoveToken(classes[1..], token);
        assert rest != [] ==> rest[0] in rest && rest[0] != classes[0];
        rest
      else
        var rest := RemoveToken(classes[1..], token);
        assert ([classes[0]] + rest)[1..] == rest;
        [classes[0]] + rest
  }

  /** Removing a token that is not there changes nothing. */
  lemma {:induction false} RemoveAbsentToken(classes: seq<string>, token: string)
    requires token !in classes
    ensures RemoveToken(classes, token) == classes
    decreases |classes|
  {
    if classes != [] {
      RemoveAbsentToken(classes[1..], token);
    }
  }

  /** `resetPanels`: the mounted panel that just exited drops the marker; any other panel keeps its classes. */
  function ResetPanels(classList: seq<string>, panelNode: Option<int>, panelIndex: int, prevActiveIndex: int): (r: seq<string>)
    ensures prevActiveIndex == panelIndex && panelNode.Some? ==> Marker !in r
    ensures prevActiveIndex == panelIndex && panelNode.Some? ==>
      forall t :: t != Marker ==> (t in r <==> t in classList)
    ensures prevActiveIndex == panelIndex && panelNode.Some? ==>
      multiset(r) == multiset(classList)[Marker := 0] && Subsequence(r, classList)
    ensures !(prevActiveIndex == panelIndex && panelNode.Some?) ==> r == classList
  {
    if prevActiveIndex == panelIndex && panelNode.Some? then
      if Marker in classList then RemoveToken(classList, Marker)
      else RemoveAbsentToken(classList, Marker); classList
    else classList
  }

  /** The effect of one `animationend` event on a panel: its element's classes and whether the parent was told. */
  datatype EndOutcome = EndOutcome(classList: seq<string>, notifiedParent: bool)

  /**
    `handleAnimationEnd`: an event bubbled up from another element is ignored; otherwise
    the panel resets and then calls the container's completion callback if it has one.
    `event` is the event's target element (None when no event object is passed), and
    `panelNode` the panel's own element (None before it is mounted).
   */
  function HandlePanelAnimationEnd(
    event: Option<int>, panelNode: Option<int>, classList: seq<string>,
    panelIndex: int, prevActiveIndex: int, hasCallback: bool): (r: EndOutcome)
    ensures event.Some? && panelNode != Some(event.value) ==> r == EndOutcome(classList, false)
    ensures !(event.Some? && panelNode != Some(event.value)) ==>
      r.notifiedParent == hasCallback &&
      r.classList == ResetPanels(classList, panelNode, panelIndex, prevActiveIndex)
  {
    if event.Some? && panelNode != Some(event.value) then EndOutcome(classList, false)
    else EndOutcome(ResetPanels(classList, panelNode, panelIndex, prevActiveIndex), hasCallback)
  }
}
