# react-panel-slider, modelled in Dafny

A panel slider: a `PanelContainer` holds a fixed number of child `Panel`s, one
active at a time, and moves between them with a directional enter/exit
animation that is driven purely by CSS class tokens. This project models the
logic underneath the React shell:

- `PanelContainer` (panel_container.dfy): the navigation state
  `(activeIndex, prevActiveIndex, isAnimating)` as an immutable `State`, the
  callbacks `onPrevPanel`, `onNextPanel` and `handleAnimationEnd` as a pure
  reducer `Step(state, action, panelTotal)`, the re-render predicate
  `shouldComponentUpdate`, the `grid-template-areas` string built by
  `assignGridValues`, and the choice between the `render` prop and a function
  child (or the thrown error).
- `Panel` (panel.dfy): how one panel resolves its ordered class tokens from
  its index, the container's state, its `animationType` and its own
  `panelClassname`; the `className`/`zIndex` it renders; and its
  `animationend` handler with `resetPanels`.
- `Animations` (animations.dfy): the 18 `AnimationKeys` and the `animations`
  registry, kept as the source's list of single-key entries searched with
  `find`, together with a lookup table `Effect` it is proved to agree with.
- `Slider` (slider.dfy): the two components together: which panels show the
  `isActive` marker in every reachable state, one full transition from request
  to both completion events, and concrete three-panel walk-throughs.
- `Results` (results.dfy): `Option` and `Result`.

Everything is a pure function of its inputs. Source integers are modelled as
mathematical integers; element identity for the `animationend` target test is
an integer handle.

Behaviour of the code worth knowing:

- The marker token a shown panel carries is `isActive`, always appended last.
- The direction is global: both the entering and the exiting panel take their
  lists from the effect of the current move (`nextAnimation` iff
  `activeIndex > prevActiveIndex`, else `prevAnimation`). After a forward move
  the exiting panel therefore gets the forward effect's exiting list.
- While animating, a panel that is neither entering nor exiting gets no
  classes at all; its own `panelClassname` classes are dropped too. At rest a
  non-active panel keeps its own classes, so after a move the old panel keeps
  e.g. `panel`.
- The effect lookup `find`s the entry and destructures it. The model types the
  effect as the `AnimationKey` datatype and proves that every key has exactly
  one registry entry, so the lookup is total.
- The initial state is fixed at panel 0, and `handleAnimationEnd` only clears
  the flag, so the second completion event of a move changes nothing.
- A `panelClassname` string holding whitespace stays one entry of the token list;
  the browser reads the joined attribute back as several classes.

## Model

| member | source | states |
|---|---|---|
| `PanelContainer.InitialState` | src/components/PanelContainer.tsx:18-22 | The initial state has both indices 0 and is not animating, and it satisfies the navigation invariant for every panel total. |
| `PanelContainer.OnPrevPanel` | src/components/PanelContainer.tsx:118-136 | A prev request either leaves the state as it is or records the old index as previous, moves back by one and starts animating; it changes the state exactly when it is not animating, there are at least two panels and the active panel is not the first, so it is a no-op while animating, with fewer than two panels, or at index 0. |
| `PanelContainer.OnNextPanel` | src/components/PanelContainer.tsx:139-156 | A next request either leaves the state as it is or records the old index, moves forward by one and starts animating; it changes the state exactly when not animating, at least two panels, and the active index is not `panelTotal - 1`, so it is a no-op while animating, with fewer than two panels, or at the last panel. |
| `PanelContainer.HandleAnimationEnd` | src/components/PanelContainer.tsx:159-163 | Completion clears the animating flag and leaves both indices untouched. |
| `PanelContainer.AcceptedNavigation` | src/components/PanelContainer.tsx:128-154 | An accepted prev/next yields exactly `(old ± 1, old, true)`: nothing else in the state changes. |
| `PanelContainer.AnimationEndIdempotent` | src/components/PanelContainer.tsx:159-163 | Completion only sets the flag to false, and the second completion of a move (one per animated panel) changes nothing further. |
| `PanelContainer.StepPreservesInv` | src/components/PanelContainer.tsx:118-163 | With `panelTotal` fixed, every callback keeps both indices in `[0, max(0, panelTotal - 1)]`, their difference at most 1 (and non-zero while animating); after an accepted move the difference is exactly 1. |
| `PanelContainer.RunPreservesInv` | src/components/PanelContainer.tsx:118-163 | The invariant survives any sequence of callbacks with `panelTotal` fixed. |
| `PanelContainer.ReachableStatesSatisfyInv` | src/components/PanelContainer.tsx:18-163 | Every state reachable from the initial state satisfies the invariant. |
| `PanelContainer.ShrinkingTotalEscapesBound` | src/components/PanelContainer.tsx:145 | Because next's boundary test is an equality, a valid state for three panels moves past the last panel once the total drops to two. |
| `PanelContainer.IndexGrowsPastLast` | src/components/PanelContainer.tsx:145 | Once the active index is past the last panel, next is never blocked again: k rounds of next and completion move the index k panels further. |
| `PanelContainer.NavigationDroppedWhileAnimating` | src/components/PanelContainer.tsx:119-142 | While a move is in flight, any sequence of prev/next requests processed one at a time is dropped entirely (nothing is queued). |
| `PanelContainer.FewPanelsNeverMove` | src/components/PanelContainer.tsx:119-142 | With fewer than two panels, every sequence of callbacks leaves the initial state as it is. |
| `PanelContainer.PrevThenNextRestores` | src/components/PanelContainer.tsx:128-154 | Prev, completion, then next restores the active index and records the intermediate panel as previous; next then prev likewise. |
| `PanelContainer.ShouldComponentUpdate` | src/components/PanelContainer.tsx:45-51 | A change of the active index, the animating flag or the panel total forces a re-render, and nothing else does: it re-renders iff the total changed or the states differ in a field other than `prevActiveIndex`. |
| `PanelContainer.PrevIndexAloneDoesNotRerender` | src/components/PanelContainer.tsx:45-51 | Changing only `prevActiveIndex` does not re-render. |
| `PanelContainer.RerenderIffStateChanged` | src/components/PanelContainer.tsx:45-51 | Under the reducer, a callback causes a re-render exactly when it changed the state: accepted moves and the first completion do, dropped requests and a repeated completion do not. |
| `PanelContainer.BuildTemplateString` | src/components/PanelContainer.tsx:105-107 | The `forEach` loop produces the in-order concatenation of `'v' ` for every area. |
| `PanelContainer.TemplateAreasRoundTrip` | src/components/PanelContainer.tsx:104-111 | Reading the template string back as quoted, space-terminated names gives the original list of areas (for names without quotes). |
| `PanelContainer.AssignGridValues` | src/components/PanelContainer.tsx:97-115 | Column and row sizes pass through; `gridTemplateAreas` is absent exactly when the area list is empty, and otherwise names every area in order. |
| `PanelContainer.DefaultTemplateAreas` | src/components/PanelContainer.tsx:14-16 | The default `gridProperties` has one empty area name, so the default style still carries the template `'' `. |
| `PanelContainer.SelectRenderer` | src/components/PanelContainer.tsx:87-91 | The `render` prop is used when present, else a function child, else rendering fails with the fixed error message. |
| `Animations.EveryKeyHasExactlyOneEntry` | src/utils/animations.ts:38-146 | Each of the 18 keys names exactly one entry of the registry list, and `find` lands on the entry at the key's declaration position. |
| `Animations.EntryNamesFollowEnum` | src/utils/animations.ts:2-146 | The registry lists the enum's members in declaration order, each entry carrying the key's string value and its lookup-table class lists. |
| `Animations.Find` | src/components/Panel.tsx:132 | The search returns the first entry with the given name, or none exactly when no entry has it. |
| `Animations.Lookup` | src/components/Panel.tsx:132-133 | The `find`-then-destructure lookup is total over the enum and yields the lookup table's class lists for the key. |
| `Animations.EveryEffectHasClasses` | src/utils/animations.ts:38-146 | Every effect has a non-empty entering list and a non-empty exiting list. |
| `Animations.DefaultEffects` | src/utils/animations.ts:40-49 | `fromRight` resolves to `['fromRight']`/`['toLeft']` and `fromLeft` to `['fromLeft']`/`['toRight']`. |
| `Animations.SlideEntersUnderOwnName` | src/utils/animations.ts:39-86 | For the eight plain and fade slides, the entering list is the single token equal to the key's string value. |
| `Animations.OnTopInTable` | src/utils/animations.ts:87-146 | Easing and cube effects append `onTop` to the exiting list; scale-down effects append it to the entering list and exit with `['scaleDown']`; slides never use it. |
| `Animations.OnTopPlacement` | src/utils/animations.ts:87-146 | The same placement holds for what the panel's registry lookup returns. |
| `Animations.NoEffectEmitsMarker` | src/utils/animations.ts:38-146 | No effect's lists contain `isActive`, the token the panel adds itself. |
| `Panel.AssignPropClassnames` | src/components/Panel.tsx:73-85 | An absent prop or `''` gives no classes, a non-empty string gives a one-element list, an array is copied element for element. |
| `Panel.PropClassnamesIdempotent` | src/components/Panel.tsx:73-85 | Normalising an already normalised list changes nothing; a string prop never yields more than one class or an empty class. |
| `Panel.GetAnimationType` | src/components/Panel.tsx:126-139 | The registry lookup yields the forward effect's class lists when the move goes forward and the backward effect's otherwise, as the lookup table gives them. |
| `Panel.GetDirectionalClassname` | src/components/Panel.tsx:115-123 | The entering panel gets the current move's entering list; any other panel gets its exiting list. |
| `Panel.AssignAnimationClassnames` | src/components/Panel.tsx:89-113 | At rest the active panel appends `isActive` and others keep the given classes; in motion the entering panel appends the move's entering list and `isActive`, the exiting panel the move's exiting list and `isActive`, every other panel gets nothing. |
| `Panel.PanelClasses` | src/components/Panel.tsx:89-113 | At rest the active panel gets its own classes then `isActive`, others their own classes; in motion the entering panel gets own + the move's entering list + `isActive`, the exiting panel own + the move's exiting list + `isActive`, and every other panel nothing. |
| `Panel.MarkerIffShown` | src/components/Panel.tsx:96-110 | When its own classes do not include `isActive`, a panel carries `isActive` exactly when it is the active panel or, during a move, the exiting panel; the marker is then the last token. |
| `Panel.OwnClassesFirst` | src/components/Panel.tsx:96-110 | The panel's own classes lead its token list unless it is an uninvolved panel during a move. |
| `Panel.DirectionIsGlobal` | src/components/Panel.tsx:115-130 | Entering and exiting panel of one move (with the same `animationType`) take their lists from the same effect, each after its own classes: own + entering list + `isActive`, and own + exiting list + `isActive`. |
| `Panel.BothRolesTakeEnteringList` | src/components/Panel.tsx:92-122 | A panel that is both entering and exiting gets the entering list (of the backward effect, as no index went up). |
| `Panel.JoinReadBack` | src/components/Panel.tsx:55-58 | Reading the space-joined attribute back gives, in order, the classes read from each listed name, whatever the names hold. |
| `Panel.JoinRoundTrip` | src/components/Panel.tsx:55-58 | For non-empty names without ASCII whitespace, joining and reading the attribute back gives exactly the names. |
| `Panel.JoinEmptyIff` | src/components/Panel.tsx:58-63 | The joined string is empty exactly for no tokens or a single empty token. |
| `Panel.RenderPanel` | src/components/Panel.tsx:42-63 | `zIndex` is 1 iff the panel is active, else 0; the grid area passes through; the class attribute is absent exactly when the joined tokens are empty; the element's class list is the classes read from each token in turn, split on ASCII whitespace (tab, line feed, form feed, carriage return, space), which is the token list itself when every token is a non-empty name without whitespace. |
| `Panel.ClassAttributePresence` | src/components/Panel.tsx:63 | A shown panel always renders a class attribute; an uninvolved panel during a move never does. |
| `Panel.RemoveToken` | src/components/Panel.tsx:158-160 | Removing a token leaves no occurrence of it, removes nothing else (as a multiset), and keeps the remaining tokens in their order. |
| `Panel.RemoveAbsentToken` | src/components/Panel.tsx:158-159 | Removing a token that is not present changes nothing, so the `contains` guard is only an optimisation. |
| `Panel.ResetPanels` | src/components/Panel.tsx:153-162 | The mounted panel recorded as previous drops every `isActive` and keeps each other token, with its multiplicity and in its order; any other panel's classes are unchanged. |
| `Panel.HandlePanelAnimationEnd` | src/components/Panel.tsx:142-150 | An event whose target is not the panel's own element changes nothing and does not call the container; otherwise the panel resets and then calls the container when it has a callback. |
| `Slider.ShownPanelsMatchState` | src/components/Panel.tsx:96-110 | In every reachable container state with at least one panel, with each panel's own effects and classes (none of which is `isActive`), exactly one panel shows `isActive` at rest and exactly two (entering and exiting) during a move. |
| `Slider.TransitionCompletes` | src/components/Panel.tsx:142-161 | After an accepted move, the two animated panels' own completion events both reach the container; the exiting element's class list, as read from its rendered attribute, loses `isActive`, the entering one keeps it, and the container settles on the new panel with the old one recorded as previous. |
| `Slider.ThreePanelsForward` | src/components/Panel.tsx:89-122 | Three panels with default effects and class `panel`: after next, panel 0 has `panel toLeft isActive`, panel 1 `panel fromRight isActive`, panel 2 nothing; after completion panel 1 has `panel isActive`, panel 0 `panel`. |
| `Slider.ThreePanelsBackward` | src/components/Panel.tsx:115-130 | Going back from panel 1 with the default effects, panel 0 enters with `fromLeft` and panel 1 leaves with `toRight`. |
| `Slider.SpacedClassNameSplitsOnElement` | src/components/Panel.tsx:73-85 | The string prop `panel big` is one token of the list, renders as `panel big isActive`, and the element reads it as the classes `panel`, `big`, `isActive`. |
| `Slider.TabbedClassNameSplitsOnElement` | src/components/Panel.tsx:55-85 | The string prop `panel<TAB>big` is one token of the list, renders as `panel<TAB>big isActive`, and the element reads it as the classes `panel`, `big`, `isActive`: a tab separates classes as a space does. |

## Left out

- React lifecycle: `setState` batching, refs and re-render scheduling are not modelled; callbacks are processed one at a time, each seeing the state the previous one produced. The guard of `onPrevPanel`/`onNextPanel` reads `this.state` and the updater does not re-check `isAnimating`, so two requests inside one batched event both pass the guard and both moves apply; `NavigationDroppedWhileAnimating` holds only for callbacks flushed one at a time.
- The DOM `classList` is modelled as a sequence of tokens, not as an ordered set; duplicate tokens are not merged.
- Style objects other than `zIndex`, `gridArea` and the grid template values are constant literals and are left out.
- `templateArea` that is `undefined` at run time is not modelled; the prop's type makes it an array.
- `isFunction` is a run-time `typeof` test; the kind of the `children` prop is given as a three-way datatype instead.
- `pipe` is inlined as the fixed composition `assignAnimationClassnames(assignPropClassnames(x))`.
- A `panelClassname` of a type other than a string or an array of strings is not modelled.
- Effect names outside the enum are not modelled: the source would throw on them, and the model types the effect as the enum.
- Numbers are modelled as mathematical integers; non-integer or non-finite `panelTotal` and indices are out of scope.
- `shouldComponentUpdate` reacts only to `panelTotal` among the props, as in the source; changes to other props are not modelled.
- src/App.tsx (demo content) and src/components/ControlWrapper.tsx (a style wrapper) carry no logic of the core and are not part of this model.
