/**
  The effect registry of src/utils/animations.ts: the 18 members of the
  `AnimationKeys` enum, their string values, and the list of single-key
  entries that maps each effect name to its entering and exiting class lists.
 */
module Animations {
  import opened Results

  /** The members of the `AnimationKeys` string enum, in declaration order. */
  datatype AnimationKey =
    | FromRight | FromLeft | FromBottom | FromTop
    | FromRightFade | FromLeftFade | FromBottomFade | FromTopFade
    | ToLeftEasing | ToRightEasing | ToTopEasing | ToBottomEasing
    | ScaleDownFromRight | ScaleDownFromLeft | ScaleDownFromTop | ScaleDownFromBottom
    | CubeToLeft | CubeToRight

  /** The class lists of one effect: the entering panel's and the exiting panel's. */
  datatype AnimationOptions = AnimationOptions(enteringClass: seq<string>, exitingClass: seq<string>)

  /** One object of the `animations` array: a single effect name mapped to its options. */
  datatype Entry = Entry(name: string, options: AnimationOptions)

  /** The string value each enum member stands for. */
  function KeyName(k: AnimationKey): string
  {
    match k
    case FromRight => "fromRight"
    case FromLeft => "fromLeft"
    case FromBottom => "fromBottom"
    case FromTop => "fromTop"
    case FromRightFade => "fromRightFade"
    case FromLeftFade => "fromLeftFade"
    case FromBottomFade => "fromBottomFade"
    case FromTopFade => "fromTopFade"
    case ToLeftEasing => "toLeftEasing"
    case ToRightEasing => "toRightEasing"
    case ToTopEasing => "toTopEasing"
    case ToBottomEasing => "toBottomEasing"
    case ScaleDownFromRight => "scaleDownFromRight"
    case ScaleDownFromLeft => "scaleDownFromLeft"
    case ScaleDownFromTop => "scaleDownFromTop"
    case ScaleDownFromBottom => "scaleDownFromBottom"
    case CubeToLeft => "cubeToLeft"
    case CubeToRight => "cubeToRight"
  }

  /** The registry as a lookup table: the class lists each effect resolves to. */
  function Effect(k: AnimationKey): AnimationOptions
  {
    match k
    case FromRight => AnimationOptions(["fromRight"], ["toLeft"])
    case FromLeft => AnimationOptions(["fromLeft"], ["toRight"])
    case FromBottom => AnimationOptions(["fromBottom"], ["toTop"])
    case FromTop => AnimationOptions(["fromTop"], ["toBottom"])
    case FromRightFade => AnimationOptions(["fromRightFade"], ["toLeftFade"])
    case FromLeftFade => AnimationOptions(["fromLeftFade"], ["toRightFade"])
    case FromBottomFade => AnimationOptions(["fromBottomFade"], ["toTopFade"])
    case FromTopFade => AnimationOptions(["fromTopFade"], ["toBottomFade"])
    case ToLeftEasing => AnimationOptions(["fromRight"], ["toLeftEasing", "onTop"])
    case ToRightEasing => AnimationOptions(["fromLeft"], ["toRightEasing", "onTop"])
    case ToTopEasing => AnimationOptions(["fromBottom"], ["toTopEasing", "onTop"])
    case ToBottomEasing => AnimationOptions(["fromTop"], ["toBottomEasing", "onTop"])
    case ScaleDownFromRight => AnimationOptions(["fromRight", "onTop"], ["scaleDown"])
    case ScaleDownFromLeft => AnimationOptions(["fromLeft", "onTop"], ["scaleDown"])
    case ScaleDownFromTop => AnimationOptions(["fromTop", "onTop"], ["scaleDown"])
    case ScaleDownFromBottom => AnimationOptions(["fromBottom", "onTop"], ["scaleDown"])
    case CubeToLeft => AnimationOptions(["cubeLeftIn"], ["cubeLeftOut", "onTop"])
    case CubeToRight => AnimationOptions(["cubeRightIn"], ["cubeRightOut", "onTop"])
  }

  /** The `animations` array, entry for entry and in the same order. */
  const Registry: seq<Entry> := [
    Entry("fromRight", AnimationOptions(["fromRight"], ["toLeft"])),
    Entry("fromLeft", AnimationOptions(["fromLeft"], ["toRight"])),
    Entry("fromBottom", AnimationOptions(["fromBottom"], ["toTop"])),
    Entry("fromTop", AnimationOptions(["fromTop"], ["toBottom"])),
    Entry("fromRightFade", AnimationOptions(["fromRightFade"], ["toLeftFade"])),
    Entry("fromLeftFade", AnimationOptions(["fromLeftFade"], ["toRightFade"])),
    Entry("fromBottomFade", AnimationOptions(["fromBottomFade"], ["toTopFade"])),
    Entry("fromTopFade", AnimationOptions(["fromTopFade"], ["toBottomFade"])),
    Entry("toLeftEasing", AnimationOptions(["fromRight"], ["toLeftEasing", "onTop"])),
    Entry("toRightEasing", AnimationOptions(["fromLeft"], ["toRightEasing", "onTop"])),
    Entry("toTopEasing", AnimationOptions(["fromBottom"], ["toTopEasing", "onTop"])),
    Entry("toBottomEasing", AnimationOptions(["fromTop"], ["toBottomEasing", "onTop"])),
    Entry("scaleDownFromRight", AnimationOptions(["fromRight", "onTop"], ["scaleDown"])),
    Entry("scaleDownFromLeft", AnimationOptions(["fromLeft", "onTop"], ["scaleDown"])),
    Entry("scaleDownFromTop", AnimationOptions(["fromTop", "onTop"], ["scaleDown"])),
    Entry("scaleDownFromBottom", AnimationOptions(["fromBottom", "onTop"], ["scaleDown"])),
    Entry("cubeToLeft", AnimationOptions(["cubeLeftIn"], ["cubeLeftOut", "onTop"])),
    Entry("cubeToRight", AnimationOptions(["cubeRightIn"], ["cubeRightOut", "onTop"]))
  ]

  /** `animations.find(...)` from position `from` on: the first entry whose name is `name`. */
  function FindFrom(name: string, from: nat): (r: Option<nat>)
    requires from <= |Registry|
    decreases |Registry| - from
    ensures r.Some? ==> from <= r.value < |Registry| && Registry[r.value].name == name
    ensures r.Some? ==> forall i :: from <= i < r.value ==> Registry[i].name != name
    ensures r.None? ==> forall i :: from <= i < |Registry| ==> Registry[i].name != name
  {
    if from == |Registry| then None
    else if Registry[from].name == name then Some(from)
    else FindFrom(name, from + 1)
  }

  /** The index of the first registry entry named `name`, if any. */
  function Find(name: string): (r: Option<nat>)
    ensures r.Some? ==> r.value < |Registry| && Registry[r.value].name == name
    ensures r.Some? ==> forall i :: 0 <= i < r.value ==> Registry[i].name != name
    ensures r.None? <==> forall i :: 0 <= i < |Registry| ==> Registry[i].name != name
  {
    FindFrom(name, 0)
  }

  /** How many registry entries are named `name`. */
  function CountFrom(name: string, from: nat): nat
    requires from <= |Registry|
    decreases |Registry| - from
  {
    if from == |Registry| then 0
    else (if Registry[from].name == name then 1 else 0) + CountFrom(name, from + 1)
  }

  /** The registry lists the enum's members in declaration order, each with its table entry. */
  lemma EntryNamesFollowEnum(k: AnimationKey)
    ensures KeyIndex(k) < |Registry| && Registry[KeyIndex(k)] == Entry(KeyName(k), Effect(k))
  {
  }

  /** No two registry entries share a name. */
  lemma EntryNamesDistinct(i: nat, j: nat)
    requires i < j < |Registry|
    ensures Registry[i].name != Registry[j].name
  {
  }

  /** A name held by exactly one entry at or after `from` is counted once and found there. */
  lemma {:induction false} UniqueNameFrom(name: string, from: nat, j: nat)
    requires from <= j < |Registry| && Registry[j].name == name
    requires forall i :: from <= i < |Registry| && i != j ==> Registry[i].name != name
    ensures CountFrom(name, from) == 1
    ensures FindFrom(name, from) == Some(j)
    decreases j - from
  {
    if from < j {
      UniqueNameFrom(name, from + 1, j);
    } else {
      AbsentNameFrom(name, from + 1);
    }
  }

  /** A name held by no entry at or after `from` is counted zero times. */
  lemma {:induction false} AbsentNameFrom(name: string, from: nat)
    requires from <= |Registry|
    requires forall i :: from <= i < |Registry| ==> Registry[i].name != name
    ensures CountFrom(name, from) == 0
    decreases |Registry| - from
  {
    if from < |Registry| {
      AbsentNameFrom(name, from + 1);
    }
  }

  /** Every member of the enum is named by exactly one registry entry, which sits at the member's own position. */
  lemma EveryKeyHasExactlyOneEntry(k: AnimationKey)
    ensures CountFrom(KeyName(k), 0) == 1
    ensures Find(KeyName(k)) == Some(KeyIndex(k))
  {
    EntryNamesFollowEnum(k);
    var j := KeyIndex(k);
    forall i | 0 <= i < |Registry| && i != j
      ensures Registry[i].name != KeyName(k)
    {
      if i < j { EntryNamesDistinct(i, j); } else { EntryNamesDistinct(j, i); }
    }
    UniqueNameFrom(KeyName(k), 0, j);
  }

  /** The position of the member in the enum declaration. */
  function KeyIndex(k: AnimationKey): nat
  {
    match k
    case FromRight => 0
    case FromLeft => 1
    case FromBottom => 2
    case FromTop => 3
    case FromRightFade => 4
    case FromLeftFade => 5
    case FromBottomFade => 6
    case FromTopFade => 7
    case ToLeftEasing => 8
    case ToRightEasing => 9
    case ToTopEasing => 10
    case ToBottomEasing => 11
    case ScaleDownFromRight => 12
    case ScaleDownFromLeft => 13
    case ScaleDownFromTop => 14
    case ScaleDownFromBottom => 15
    case CubeToLeft => 16
    case CubeToRight => 17
  }

  /**
    `getAnimationType`'s lookup, `animations.find(o => o[key])[key]`: total over the
    enum, and it resolves to the entry declared at the member's own position.
   */
  function Lookup(k: AnimationKey): (o: AnimationOptions)
    ensures o == Effect(k)
  {
    EveryKeyHasExactlyOneEntry(k);
    EntryNamesFollowEnum(k);
    Registry[Find(KeyName(k)).value].options
  }

  predicate IsSlideOrFade(k: AnimationKey)
  {
    k.FromRight? || k.FromLeft? || k.FromBottom? || k.FromTop?
    || k.FromRightFade? || k.FromLeftFade? || k.FromBottomFade? || k.FromTopFade?
  }

  predicate IsEasing(k: AnimationKey)
  {
    k.ToLeftEasing? || k.ToRightEasing? || k.ToTopEasing? || k.ToBottomEasing?
  }

  predicate IsScaleDown(k: AnimationKey)
  {
    k.ScaleDownFromRight? || k.ScaleDownFromLeft? || k.ScaleDownFromTop? || k.ScaleDownFromBottom?
  }

  predicate IsCube(k: AnimationKey)
  {
    k.CubeToLeft? || k.CubeToRight?
  }

  /** Every effect resolves to a non-empty entering list and a non-empty exiting list. */
  lemma EveryEffectHasClasses(k: AnimationKey)
    ensures |Lookup(k).enteringClass| > 0 && |Lookup(k).exitingClass| > 0
  {
  }

  /** The pair `Panel` uses when no `animationType` is given. */
  lemma DefaultEffects()
    ensures Lookup(FromRight) == AnimationOptions(["fromRight"], ["toLeft"])
    ensures Lookup(FromLeft) == AnimationOptions(["fromLeft"], ["toRight"])
  {
  }

  /** A plain or fade slide enters under its own name, as a single token. */
  lemma SlideEntersUnderOwnName(k: AnimationKey)
    requires IsSlideOrFade(k)
    ensures Lookup(k).enteringClass == [KeyName(k)]
  {
  }

  /**
    Where the stacking token `onTop` goes in the table: easing and cube effects lift
    the exiting panel (`onTop` appended to the exiting list), scale-down effects lift
    the entering panel and shrink the exiting one with the single token `scaleDown`;
    slides use none.
   */
  lemma OnTopInTable(k: AnimationKey)
    ensures IsEasing(k) || IsCube(k) ==>
      var o := Effect(k);
      |o.exitingClass| == 2 && o.exitingClass[1] == "onTop" && "onTop" !in o.enteringClass
    ensures IsScaleDown(k) ==>
      var o := Effect(k);
      |o.enteringClass| == 2 && o.enteringClass[1] == "onTop" && o.exitingClass == ["scaleDown"]
    ensures IsSlideOrFade(k) ==>
      "onTop" !in Effect(k).enteringClass && "onTop" !in Effect(k).exitingClass
  {
  }

  /** The same placement for what `getAnimationType` resolves. */
  lemma OnTopPlacement(k: AnimationKey)
    ensures IsEasing(k) || IsCube(k) ==>
      var o := Lookup(k);
      |o.exitingClass| == 2 && o.exitingClass[1] == "onTop" && "onTop" !in o.enteringClass
    ensures IsScaleDown(k) ==>
      var o := Lookup(k);
      |o.enteringClass| == 2 && o.enteringClass[1] == "onTop" && o.exitingClass == ["scaleDown"]
    ensures IsSlideOrFade(k) ==>
      "onTop" !in Lookup(k).enteringClass && "onTop" !in Lookup(k).exitingClass
  {
    OnTopInTable(k);
  }

  /** No effect emits the marker token `isActive` that `Panel` appends itself. */
  lemma NoEffectEmitsMarker(k: AnimationKey)
    ensures "isActive" !in Lookup(k).enteringClass
    ensures "isActive" !in Lookup(k).exitingClass
  {
  }
}
