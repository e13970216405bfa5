/**
 * The language menu's expansion label: an open/closed flag kept in the label's
 * `data-open` attribute and mirrored in `aria-expanded`. Focus opens it, blur
 * closes it; pointerdown, Enter and Space toggle it by focusing or blurring the
 * label; Escape closes it when focus is within the label's group.
 */
module ExpansionLabel {
  import opened Wrappers

  /** The events the label reacts to; `within` is whether its parent matches `:focus-within`. */
  datatype MenuEvent = Focus | Blur | PointerDown | KeyDown(key: string, within: bool)

  /** Enter and Space toggle the label. */
  predicate IsToggleKey(key: string) {
    key == "Enter" || key == " "
  }

  /** The attribute text for a flag value. */
  function FlagText(open: bool): string {
    if open then "true" else "false"
  }

  /** The open flag after one event. */
  function NextOpen(open: bool, ev: MenuEvent): bool {
    match ev
    case Focus => true
    case Blur => false
    case PointerDown => !open
    case KeyDown(key, within) =>
      if key == "Escape" && within then false
      else if IsToggleKey(key) then !open
      else open
  }

  /** The open flag after a sequence of events, handled one at a time. */
  function Run(open: bool, evs: seq<MenuEvent>): bool
    decreases evs
  {
    if evs == [] then open else Run(NextOpen(open, evs[0]), evs[1..])
  }

  /** Events that can open a closed label. */
  predicate CanOpen(ev: MenuEvent) {
    ev.Focus? || ev.PointerDown? || (ev.KeyDown? && IsToggleKey(ev.key))
  }

  /** Pointerdown, Enter and Space each toggle the flag; two in a row restore it. */
  lemma TogglesAreInvolutions(open: bool, ev: MenuEvent)
    requires ev.PointerDown? || (ev.KeyDown? && IsToggleKey(ev.key))
    ensures NextOpen(open, ev) == !open
    ensures NextOpen(NextOpen(open, ev), ev) == open
  {
  }

  /** Escape closes only within the group; any other key leaves the flag alone. */
  lemma KeyDownEffect(open: bool, key: string, within: bool)
    ensures key == "Escape" ==> NextOpen(open, KeyDown(key, within)) == (open && !within)
    ensures key != "Escape" && !IsToggleKey(key) ==> NextOpen(open, KeyDown(key, within)) == open
  {
  }

  /** Handling a concatenation of event sequences is handling one after the other. */
  lemma {:induction false} RunAppend(open: bool, a: seq<MenuEvent>, b: seq<MenuEvent>)
    ensures Run(open, a + b) == Run(Run(open, a), b)
    decreases a
  {
    if a == [] {
      assert a + b == b;
    } else {
      assert (a + b)[0] == a[0];
      assert (a + b)[1..] == a[1..] + b;
      RunAppend(NextOpen(open, a[0]), a[1..], b);
    }
  }

  /**
   * One more handled event extends the run by one step: the flag after a
   * handler that moves it by `NextOpen` (each `Label` method below) is the run
   * of all events handled so far.
   */
  lemma RunStep(open: bool, evs: seq<MenuEvent>, ev: MenuEvent)
    ensures Run(open, evs + [ev]) == NextOpen(Run(open, evs), ev)
  {
    RunAppend(open, evs, [ev]);
    assert Run(Run(open, evs), [ev]) == Run(NextOpen(Run(open, evs), ev), []);
  }

  /** Whatever came before, a final focus leaves the label open and a final blur leaves it closed. */
  lemma LastFocusOrBlurDecides(open: bool, evs: seq<MenuEvent>)
    ensures Run(open, evs + [Focus])
    ensures !Run(open, evs + [Blur])
  {
    RunStep(open, evs, Focus);
    RunStep(open, evs, Blur);
  }

  /**
   * Only focus, pointerdown, Enter and Space open the label: with none of them
   * among the events, a closed label stays closed.
   */
  lemma {:induction false} OnlyOpenersOpen(open: bool, evs: seq<MenuEvent>)
    requires forall i :: 0 <= i < |evs| ==> !CanOpen(evs[i])
    ensures Run(open, evs) ==> open
    decreases evs
  {
    if evs != [] {
      assert !CanOpen(evs[0]);
      OnlyOpenersOpen(NextOpen(open, evs[0]), evs[1..]);
    }
  }

  /** An even number of pointerdowns leaves the flag as it was, an odd number flips it. */
  lemma {:induction false} PointerDowns(open: bool, n: nat)
    ensures Run(open, seq(n, _ => PointerDown)) == (if n % 2 == 0 then open else !open)
    decreases n
  {
    var evs := seq(n, _ => PointerDown);
    if n > 0 {
      assert evs[1..] == seq(n - 1, _ => PointerDown);
      PointerDowns(!open, n - 1);
    }
  }

  class Label {
    /** The label's `tabindex` attribute; None when absent. */
    var tabIndex: Option<string>
    /** The label's `data-open` attribute. */
    var dataOpen: string
    /** The label's `aria-expanded` attribute. */
    var ariaExpanded: string

    /** Both attributes hold the same flag text. */
    ghost predicate Valid()
      reads this
    {
      (dataOpen == FlagText(true) || dataOpen == FlagText(false)) && ariaExpanded == dataOpen
    }

    predicate IsOpen()
      reads this
    {
      dataOpen == FlagText(true)
    }

    /** Set-up: make the label focusable if it is not, and start closed. */
    constructor (initialTabIndex: Option<string>)
      ensures Valid() && !IsOpen()
      ensures tabIndex == if initialTabIndex == None then Some("0") else initialTabIndex
    {
      tabIndex := if initialTabIndex == None then Some("0") else initialTabIndex;
      dataOpen := FlagText(false);
      ariaExpanded := FlagText(false);
    }

    method OnFocus()
      modifies this`dataOpen, this`ariaExpanded
      ensures Valid() && IsOpen() == NextOpen(old(IsOpen()), Focus)
    {
      dataOpen := FlagText(true);
      ariaExpanded := FlagText(true);
    }

    method OnBlur()
      modifies this`dataOpen, this`ariaExpanded
      ensures Valid() && IsOpen() == NextOpen(old(IsOpen()), Blur)
    {
      dataOpen := FlagText(false);
      ariaExpanded := FlagText(false);
    }

    /** Blur the label when open, focus it otherwise; the focus/blur handlers then update the flag. */
    method ToggleFocus()
      modifies this`dataOpen, this`ariaExpanded
      ensures Valid() && IsOpen() == !old(IsOpen())
    {
      if dataOpen == FlagText(true) {
        OnBlur();
      } else {
        OnFocus();
      }
    }

    /** Pointerdown toggles and always suppresses the browser's own focusing. */
    method OnPointerDown() returns (preventDefault: bool)
      modifies this`dataOpen, this`ariaExpanded
      ensures Valid() && IsOpen() == NextOpen(old(IsOpen()), PointerDown)
      ensures preventDefault
    {
      preventDefault := true;
      ToggleFocus();
    }

    /** Escape within the group closes; Enter and Space toggle and suppress the default action. */
    method OnKeyDown(key: string, within: bool) returns (preventDefault: bool)
      requires Valid()
      modifies this`dataOpen, this`ariaExpanded
      ensures Valid() && IsOpen() == NextOpen(old(IsOpen()), KeyDown(key, within))
      ensures preventDefault <==> IsToggleKey(key)
    {
      preventDefault := false;
      if key == "Escape" && within {
        OnBlur();
      } else if IsToggleKey(key) {
        preventDefault := true;
        ToggleFocus();
      }
    }
  }
}
