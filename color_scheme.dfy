/**
 * The side-effect-free part of the colour-scheme controls: the three preference
 * names, how the preference is read back from and written to its storage slot,
 * how an effective Dark/Light scheme is resolved against the operating system's
 * setting, which scheme each button chooses next, and the texts and CSS class
 * that the page shows for a preference.
 */
module ColorScheme {
  import opened Wrappers

  /** The user's preference: pinned Dark, pinned Light, or follow the OS. */
  datatype Scheme = Dark | Light | OS

  /** The configured name of each scheme, the string the page stores and shows. */
  function Name(s: Scheme): string {
    match s
    case Dark => "Dark"
    case Light => "Light"
    case OS => "OS"
  }

  /** Membership in the set of valid scheme names. */
  predicate IsSchemeName(v: string) {
    v == Name(Dark) || v == Name(Light) || v == Name(OS)
  }

  /** The scheme a valid name denotes. */
  function Parse(v: string): (r: Option<Scheme>)
    ensures r.Some? <==> IsSchemeName(v)
    ensures r.Some? ==> Name(r.value) == v
  {
    if v == Name(Dark) then Some(Dark)
    else if v == Name(Light) then Some(Light)
    else if v == Name(OS) then Some(OS)
    else None
  }

  lemma ParseName(s: Scheme)
    ensures Parse(Name(s)) == Some(s)
  {
  }

  // ---------------------------------------------------------------- storage

  /**
   * Reading the stored preference. `slot` is what the storage key holds (None
   * when the key is absent); `readFails` is a storage access that throws. Only
   * the exact names Dark and Light are taken; everything else means OS.
   */
  function ReadColorScheme(slot: Option<string>, readFails: bool): (r: Scheme)
    ensures r != OS <==> !readFails && slot.Some? && (slot.value == Name(Dark) || slot.value == Name(Light))
    ensures r != OS ==> slot == Some(Name(r))
  {
    if readFails then OS
    else if slot == Some(Name(Dark)) then Dark
    else if slot == Some(Name(Light)) then Light
    else OS
  }

  /**
   * What the storage key holds after a store of `val` that did not throw:
   * Dark and Light are written as they are, anything else removes the key.
   */
  function Persisted(val: string): (r: Option<string>)
    ensures r.Some? <==> val == Name(Dark) || val == Name(Light)
    ensures r.Some? ==> r.value == val
  {
    if val == Name(Dark) || val == Name(Light) then Some(val) else None
  }

  /** OS is encoded by the absence of the key: no store ever writes the name OS. */
  lemma OsNeverPersisted(val: string)
    ensures Persisted(val) != Some(Name(OS))
  {
  }

  /** A successful store followed by a successful read gives back the stored scheme. */
  lemma StoreThenRead(s: Scheme)
    ensures ReadColorScheme(Persisted(Name(s)), false) == s
    ensures s == OS <==> Persisted(Name(s)) == None
  {
  }

  /** For an arbitrary string, read-after-store keeps Dark and Light and turns the rest into OS. */
  lemma StoreThenReadAny(val: string)
    ensures ReadColorScheme(Persisted(val), false) == if val == Name(Dark) then Dark
                                                     else if val == Name(Light) then Light
                                                     else OS
  {
  }

  // ---------------------------------------------------------- effective scheme

  /**
   * The OS scheme. `mq` is the dark-mode media query: None when the browser has
   * none, otherwise whether it matches. Light is the default.
   */
  function OsScheme(mq: Option<bool>): (r: Scheme)
    ensures r != OS
    ensures r == Dark <==> mq == Some(true)
  {
    if mq.Some? && mq.value then Dark else Light
  }

  /** The scheme actually rendered: the OS scheme when following the OS, the pinned one otherwise. */
  function EffectiveScheme(cur: Scheme, mq: Option<bool>): (r: Scheme)
    ensures r != OS
    ensures cur != OS ==> r == cur
    ensures cur == OS ==> r == OsScheme(mq)
  {
    if cur == OS then OsScheme(mq) else cur
  }

  // ---------------------------------------------------------------- buttons

  /**
   * The "Fix Dark / Toggle" button: from the stored preference, OS becomes Dark
   * and a pinned scheme flips to the other one.
   */
  function NextOnFixDark(stored: Scheme): (r: Scheme)
    ensures r != OS
    ensures r == Dark <==> stored != Dark
  {
    if stored == OS then Dark
    else if stored == Dark then Light
    else Dark
  }

  /**
   * The "Fix Light / Follow OS" button: from the stored preference, OS becomes
   * Light and a pinned scheme goes back to following the OS.
   */
  function NextOnFixLight(stored: Scheme): (r: Scheme)
    ensures r != Dark
    ensures r == OS <==> stored != OS
  {
    if stored == OS then Light else OS
  }

  /** Pressing the toggle button twice from a pinned scheme restores it. */
  lemma FixDarkTwice(s: Scheme)
    requires s != OS
    ensures NextOnFixDark(NextOnFixDark(s)) == s
  {
  }

  /** From following the OS, two presses of the second button return to following the OS. */
  lemma FixLightTwice(s: Scheme)
    ensures s == OS ==> NextOnFixLight(NextOnFixLight(s)) == OS
    ensures s != OS ==> NextOnFixLight(NextOnFixLight(s)) == Light
  {
  }

  // ---------------------------------------------------------------- display

  /** What the page shows: the dark-mode class on the root element, the status text and the two button labels. */
  datatype Display = Display(darkClass: bool, status: string, fixDarkText: string, fixLightText: string)

  /** Status text for preference `cur` when the OS scheme is `os`. */
  function StatusText(cur: Scheme, os: Scheme): string {
    if cur == OS then "In " + Name(os) + " Mode (" + Name(OS) + ")"
    else "In " + Name(cur) + " Mode"
  }

  /** Label of the "Fix Dark / Toggle" button. */
  function FixDarkText(cur: Scheme): string {
    if cur == OS then "Fix " + Name(Dark)
    else "Fix " + Name(if cur == Dark then Light else Dark)
  }

  /** Label of the "Fix Light / Follow OS" button. */
  function FixLightText(cur: Scheme, os: Scheme): string {
    if cur == OS then "Fix " + Name(Light)
    else "Follow " + Name(OS) + " (" + Name(os) + ")"
  }

  /** The display for preference `cur` under media query `mq`. */
  function Render(cur: Scheme, mq: Option<bool>): (d: Display)
    ensures d.darkClass <==> EffectiveScheme(cur, mq) == Dark
  {
    var os := OsScheme(mq);
    Display(EffectiveScheme(cur, mq) == Dark, StatusText(cur, os), FixDarkText(cur), FixLightText(cur, os))
  }

  /**
   * The status text names the effective scheme, and says "(OS)" exactly when
   * the preference follows the OS.
   */
  lemma StatusNamesEffectiveScheme(cur: Scheme, mq: Option<bool>)
    ensures Render(cur, mq).status
         == "In " + Name(EffectiveScheme(cur, mq)) + " Mode" + (if cur == OS then " (" + Name(OS) + ")" else "")
  {
  }

  /**
   * Each button's label announces what pressing it does when the preference on
   * display is also the stored one: the first names the scheme it pins next, the
   * second names the scheme it pins or, when it would resume following the OS,
   * the scheme the OS currently gives.
   */
  lemma LabelsAnnounceNextScheme(cur: Scheme, mq: Option<bool>)
    ensures Render(cur, mq).fixDarkText == "Fix " + Name(NextOnFixDark(cur))
    ensures Render(cur, mq).fixLightText
         == if NextOnFixLight(cur) == OS then "Follow " + Name(OS) + " (" + Name(OsScheme(mq)) + ")"
            else "Fix " + Name(NextOnFixLight(cur))
  {
  }

  /** The status text alone tells which preference is set and which scheme is in effect. */
  lemma StatusIdentifiesState(c1: Scheme, m1: Option<bool>, c2: Scheme, m2: Option<bool>)
    requires Render(c1, m1).status == Render(c2, m2).status
    ensures c1 == c2
    ensures EffectiveScheme(c1, m1) == EffectiveScheme(c2, m2)
  {
  }

  // ------------------------------------------------------------ storage event

  /** The preference a storage event for the key carries: a removed key (null new value) means OS. */
  function SchemeFromEvent(newValue: Option<string>): (r: string)
    ensures newValue.Some? ==> r == newValue.value
    ensures newValue == None ==> r == Name(OS)
  {
    if newValue == None then Name(OS) else newValue.value
  }

  /**
   * Cross-tab convergence: when another tab stores scheme `s`, the storage event
   * it causes carries exactly the name of `s`, and what this tab would read back
   * from the shared slot is `s` as well.
   */
  lemma CrossTabConverges(s: Scheme)
    ensures SchemeFromEvent(Persisted(Name(s))) == Name(s)
    ensures Parse(SchemeFromEvent(Persisted(Name(s)))) == Some(ReadColorScheme(Persisted(Name(s)), false))
  {
  }
}
