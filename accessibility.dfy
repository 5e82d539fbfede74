// components/accessibility-features.tsx: the accessibility panel. A font size
// stepped by two pixels between 12 and 24, three on/off switches, and the
// detection of keyboard use.

module Accessibility {

  const MinFontSize := 12
  const MaxFontSize := 24
  const DefaultFontSize := 16
  const FontStep := 2

  function Max(a: int, b: int): int
  {
    if a >= b then a else b
  }

  function Min(a: int, b: int): int
  {
    if a <= b then a else b
  }

  /** `Math.max(12, fontSize - 2)`. */
  function Decreased(size: int): int
  {
    Max(MinFontSize, size - FontStep)
  }

  /** `Math.min(24, fontSize + 2)`. */
  function Increased(size: int): int
  {
    Min(MaxFontSize, size + FontStep)
  }

  /** The sizes the panel can reach: even, from 12 to 24. */
  predicate ValidSize(size: int)
  {
    MinFontSize <= size <= MaxFontSize && size % 2 == 0
  }

  predicate DecreaseDisabled(size: int)
  {
    size <= MinFontSize
  }

  predicate IncreaseDisabled(size: int)
  {
    size >= MaxFontSize
  }

  /** Each step moves a valid size by exactly two pixels unless it is at the bound,
      where it stays. */
  lemma StepsKeepSizeValid(size: int)
    requires ValidSize(size)
    ensures ValidSize(Decreased(size)) && ValidSize(Increased(size))
    ensures Decreased(size) == if size == MinFontSize then size else size - FontStep
    ensures Increased(size) == if size == MaxFontSize then size else size + FontStep
  {
  }

  /** On a valid size a button is disabled exactly when pressing it would change nothing. */
  lemma DisabledIffNoOp(size: int)
    requires ValidSize(size)
    ensures DecreaseDisabled(size) <==> Decreased(size) == size
    ensures IncreaseDisabled(size) <==> Increased(size) == size
  {
  }

  /** The three font buttons. */
  datatype FontAction = Decrease | Increase | Reset

  function Apply(size: int, a: FontAction): int
  {
    match a
    case Decrease => Decreased(size)
    case Increase => Increased(size)
    case Reset => DefaultFontSize
  }

  /** The size after pressing the buttons in order. */
  function Run(size: int, actions: seq<FontAction>): int
    decreases |actions|
  {
    if actions == [] then size else Run(Apply(size, actions[0]), actions[1..])
  }

  /** From the initial 16 pixels, any sequence of presses leaves an even size
      between 12 and 24. */
  lemma {:induction false} RunKeepsSizeValid(size: int, actions: seq<FontAction>)
    requires ValidSize(size)
    ensures ValidSize(Run(size, actions))
    decreases |actions|
  {
    if actions != [] {
      StepsKeepSizeValid(size);
      RunKeepsSizeValid(Apply(size, actions[0]), actions[1..]);
    }
  }

  lemma FromDefaultSizeStaysValid(actions: seq<FontAction>)
    ensures ValidSize(Run(DefaultFontSize, actions))
  {
    RunKeepsSizeValid(DefaultFontSize, actions);
  }

  datatype PanelState = PanelState(
    fontSize: int, highContrast: bool, reducedMotion: bool, screenReaderMode: bool, keyboardNavigation: bool)

  const InitialPanel := PanelState(DefaultFontSize, false, false, false, false)

  class AccessibilityPanel {
    var fontSize: int
    var highContrast: bool
    var reducedMotion: bool
    var screenReaderMode: bool
    var keyboardNavigation: bool

    function State(): PanelState
      reads this
    {
      PanelState(fontSize, highContrast, reducedMotion, screenReaderMode, keyboardNavigation)
    }

    ghost predicate Valid()
      reads this
    {
      ValidSize(fontSize)
    }

    constructor ()
      ensures Valid() && State() == InitialPanel
    {
      fontSize := DefaultFontSize;
      highContrast, reducedMotion, screenReaderMode, keyboardNavigation := false, false, false, false;
    }

    /** "A-". */
    method DecreaseFontSize()
      requires Valid()
      modifies this
      ensures Valid() && State() == old(State()).(fontSize := Decreased(old(fontSize)))
    {
      StepsKeepSizeValid(fontSize);
      fontSize := Max(MinFontSize, fontSize - FontStep);
    }

    /** "A+". */
    method IncreaseFontSize()
      requires Valid()
      modifies this
      ensures Valid() && State() == old(State()).(fontSize := Increased(old(fontSize)))
    {
      StepsKeepSizeValid(fontSize);
      fontSize := Min(MaxFontSize, fontSize + FontStep);
    }

    /** "Réinitialiser". */
    method ResetFontSize()
      requires Valid()
      modifies this
      ensures Valid() && State() == old(State()).(fontSize := DefaultFontSize)
    {
      fontSize := DefaultFontSize;
    }

    method ToggleHighContrast()
      requires Valid()
      modifies this
      ensures Valid() && State() == old(State()).(highContrast := !old(highContrast))
    {
      highContrast := !highContrast;
    }

    method ToggleReducedMotion()
      requires Valid()
      modifies this
      ensures Valid() && State() == old(State()).(reducedMotion := !old(reducedMotion))
    {
      reducedMotion := !reducedMotion;
    }

    method ToggleScreenReaderMode()
      requires Valid()
      modifies this
      ensures Valid() && State() == old(State()).(screenReaderMode := !old(screenReaderMode))
    {
      screenReaderMode := !screenReaderMode;
    }

    /** The document's keydown listener: Tab reveals keyboard use. */
    method OnKeyDown(key: string)
      requires Valid()
      modifies this
      ensures Valid()
      ensures State() == if key == "Tab" then old(State()).(keyboardNavigation := true) else old(State())
    {
      if key == "Tab" {
        keyboardNavigation := true;
      }
    }

    /** The document's mousedown listener. */
    method OnMouseDown()
      requires Valid()
      modifies this
      ensures Valid() && State() == old(State()).(keyboardNavigation := false)
    {
      keyboardNavigation := false;
    }
  }
}
